/** The requests screen: the defined entities, sorted with incomplete
    requests first, narrowed to what the signed-in user may see. */
module RequestsList {
  import opened Values
  import opened Seqs
  import Entities
  import UseAuth
  import opened RequestsApiSlice

  predicate IsOpen(r: Request) { !r.completed }
  predicate IsDone(r: Request) { r.completed }

  /** Places `x` in front of the first element it does not sort after. */
  function Insert(x: Request, s: seq<Request>): (r: seq<Request>)
    ensures multiset(r) == multiset(s) + multiset{x}
  {
    if s == [] || SortComparer(x, s[0]) <= 0 then [x] + s
    else
      assert s == [s[0]] + s[1..];
      [s[0]] + Insert(x, s[1..])
  }

  /** `Array.prototype.sort` with `sortComparer`, which is stable: an
      insertion sort that inserts each element ahead of its equals from
      later positions. */
  function Sort(xs: seq<Request>): (r: seq<Request>)
    ensures multiset(r) == multiset(xs)
  {
    if xs == [] then []
    else
      assert xs == [xs[0]] + xs[1..];
      Insert(xs[0], Sort(xs[1..]))
  }

  /** Inserting a completed request behind incomplete ones and ahead of
      completed ones. */
  lemma {:induction false} InsertDone(x: Request, open: seq<Request>, done: seq<Request>)
    requires x.completed
    requires forall i :: 0 <= i < |open| ==> !open[i].completed
    requires done == [] || done[0].completed
    ensures Insert(x, open + done) == open + ([x] + done)
  {
    if open == [] {
      assert open + done == done;
    } else {
      var tail := open[1..];
      assert (open + done)[0] == open[0];
      assert (open + done)[1..] == tail + done;
      InsertDone(x, tail, done);
      assert open == [open[0]] + tail;
    }
  }

  /** The sorted list is the incomplete requests, then the completed ones,
      each in their original order. */
  lemma {:induction false} SortPartitions(xs: seq<Request>)
    ensures Sort(xs) == Filter(xs, IsOpen) + Filter(xs, IsDone)
  {
    if xs != [] {
      SortPartitions(xs[1..]);
      SortStep(xs);
    }
  }

  /** One step of `SortPartitions`: sorting a non-empty list inserts its
      head into the partitioned tail. */
  lemma SortStep(xs: seq<Request>)
    requires xs != []
    requires Sort(xs[1..]) == Filter(xs[1..], IsOpen) + Filter(xs[1..], IsDone)
    ensures Sort(xs) == Filter(xs, IsOpen) + Filter(xs, IsDone)
  {
    var x, open, done := xs[0], Filter(xs[1..], IsOpen), Filter(xs[1..], IsDone);
    assert Sort(xs) == Insert(x, open + done);
    if x.completed {
      InsertDone(x, open, done);
      assert Filter(xs, IsOpen) == open;
      assert Filter(xs, IsDone) == [x] + done;
    } else {
      SortStepOpen(x, open, done);
      assert Filter(xs, IsOpen) == [x] + open;
      assert Filter(xs, IsDone) == done;
    }
  }

  lemma SortStepOpen(x: Request, open: seq<Request>, done: seq<Request>)
    requires !x.completed
    ensures Insert(x, open + done) == [x] + open + done
  {
    assert open + done == [] || SortComparer(x, (open + done)[0]) <= 0;
    assert [x] + (open + done) == [x] + open + done;
  }

  /** Who sees a request: an admin sees all, an engineer the requests they
      own, anyone else the requests they made. */
  predicate Sees(identity: UseAuth.Identity, r: Request) {
    if identity.isAdmin then true
    else if identity.isEngineer then r.ownername == identity.username
    else r.requestername == identity.username
  }

  /** `filteredRequests`. */
  function Visible(requests: seq<Request>, identity: UseAuth.Identity): seq<Request> {
    if identity.isAdmin then requests
    else if identity.isEngineer then Filter(requests, (r: Request) => r.ownername == identity.username)
    else Filter(requests, (r: Request) => r.requestername == identity.username)
  }

  /** `Visible` keeps exactly the requests the user sees, in order. */
  lemma {:induction false} VisibleIsFilter(requests: seq<Request>, identity: UseAuth.Identity)
    ensures Visible(requests, identity) == Filter(requests, r => Sees(identity, r))
  {
    if requests != [] {
      VisibleIsFilter(requests[1..], identity);
    }
  }

  /** The sorted, defined requests of the query's dictionary. */
  function Requests(state: Entities.EntityState<Request>): seq<Request> {
    Sort(Entities.DefinedValues(Entities.ObjectValues(state.entities)))
  }

  /** `tableContent`. */
  function TableContent(state: Entities.EntityState<Request>, identity: UseAuth.Identity): seq<Request> {
    if |state.ids| > 0 then Visible(Requests(state), identity) else []
  }

  /** No completed request comes before an incomplete one. */
  predicate OpenFirst(rows: seq<Request>) {
    forall i, j :: 0 <= i < j < |rows| ==> !(rows[i].completed && !rows[j].completed)
  }

  lemma OpenThenDone(open: seq<Request>, done: seq<Request>)
    requires forall i :: 0 <= i < |open| ==> !open[i].completed
    requires forall i :: 0 <= i < |done| ==> done[i].completed
    ensures OpenFirst(open + done)
  {
    var rows := open + done;
    forall i, j | 0 <= i < j < |rows|
      ensures !(rows[i].completed && !rows[j].completed)
    {
      if i < |open| {
        assert rows[i] == open[i];
      } else {
        assert rows[j] == done[j - |open|];
      }
    }
  }

  /** The table's rows, filtered part by part. */
  lemma {:induction false} TableSplits(state: Entities.EntityState<Request>, identity: UseAuth.Identity)
    requires state.ids != []
    ensures var defined := Entities.DefinedValues(Entities.ObjectValues(state.entities));
      var p := (r: Request) => Sees(identity, r);
      TableContent(state, identity) == Filter(Filter(defined, IsOpen), p) + Filter(Filter(defined, IsDone), p)
  {
    var defined := Entities.DefinedValues(Entities.ObjectValues(state.entities));
    var p := (r: Request) => Sees(identity, r);
    SortPartitions(defined);
    VisibleIsFilter(Sort(defined), identity);
    FilterAppend(Filter(defined, IsOpen), Filter(defined, IsDone), p);
  }

  /** The table never shows a completed request above an incomplete one. */
  lemma TableOpenFirst(state: Entities.EntityState<Request>, identity: UseAuth.Identity)
    ensures OpenFirst(TableContent(state, identity))
  {
    if state.ids != [] {
      var defined := Entities.DefinedValues(Entities.ObjectValues(state.entities));
      var p := (r: Request) => Sees(identity, r);
      TableSplits(state, identity);
      FilterKeeps(Filter(defined, IsOpen), p, IsOpen);
      FilterKeeps(Filter(defined, IsDone), p, IsDone);
      OpenThenDone(Filter(Filter(defined, IsOpen), p), Filter(Filter(defined, IsDone), p));
    }
  }

  /** A request is a row exactly when `ids` is non-empty, the dictionary
      holds it and the user sees it. */
  lemma TableMembers(state: Entities.EntityState<Request>, identity: UseAuth.Identity, r: Request)
    ensures r in TableContent(state, identity) <==>
      state.ids != [] && Some(r) in Entities.ObjectValues(state.entities) && Sees(identity, r)
  {
    if state.ids != [] {
      var defined := Entities.DefinedValues(Entities.ObjectValues(state.entities));
      var p := (r: Request) => Sees(identity, r);
      SortPartitions(defined);
      VisibleIsFilter(Sort(defined), identity);
      FilterMembers(Sort(defined), p, r);
      assert r in Sort(defined) <==> multiset(Sort(defined))[r] > 0;
      assert r in defined <==> multiset(defined)[r] > 0;
    }
  }

  /** The table keeps the sorted order: its rows are a subsequence of the
      sorted, defined requests. */
  lemma TableSubsequence(state: Entities.EntityState<Request>, identity: UseAuth.Identity)
    ensures Subsequence(TableContent(state, identity), Requests(state))
  {
    if state.ids != [] {
      VisibleIsFilter(Requests(state), identity);
      FilterSubsequence(Requests(state), r => Sees(identity, r));
    }
  }

  /** An admin's table holds every defined request of the dictionary, each
      as often as it occurs there. */
  lemma TableAdmin(state: Entities.EntityState<Request>, identity: UseAuth.Identity)
    requires state.ids != [] && identity.isAdmin
    ensures multiset(TableContent(state, identity))
         == multiset(Entities.DefinedValues(Entities.ObjectValues(state.entities)))
  {
  }

  /** The edit button's route for a row. */
  function EditRoute(r: Request): (route: string)
    ensures |route| == 10 + |r._id| && route[..10] == "/requests/" && route[10..] == r._id
  {
    "/requests/" + r._id
  }
}
