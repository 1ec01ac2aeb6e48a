/**
  The read-only half of the remark controller: the four list handlers and the
  financial summary. Each is a filter over the caller's remarks, followed by a
  sort (list handlers) or a fold (summary). The collection is a map, so its
  documents are first enumerated in some order; every result below is stated
  so that it does not depend on that order.
 */
module RemarkQueries {
  import opened Js
  import UserSchema
  import opened RemarkSchema

  predicate Distinct(s: seq<Remark>) {
    forall i, j :: 0 <= i < j < |s| ==> s[i] != s[j]
  }

  /** The filters of the list handlers, besides the owner condition every one of them has. */
  datatype Criterion = AnyRemark | DoneIs(done: bool) | PriorityIs(priority: string) | DateWithin(start: Time, end: Time)

  predicate Matches(r: Remark, caller: UserSchema.UserId, c: Criterion) {
    && r.user == caller
    && match c
       case AnyRemark => true
       case DoneIs(d) => r.done == d
       case PriorityIs(p) => r.priority == p
       case DateWithin(lo, hi) => lo <= r.date <= hi
  }

  /** The sort keys: `{ date: -1 }` and `{ createdAt: -1 }`. */
  datatype Order = ByDate | ByCreatedAt

  function Key(r: Remark, o: Order): int {
    match o
    case ByDate => r.date
    case ByCreatedAt => r.createdAt
  }

  predicate SortedDesc(s: seq<Remark>, o: Order) {
    forall i, j :: 0 <= i < j < |s| ==> Key(s[i], o) >= Key(s[j], o)
  }

  /** The documents of the collection, each once, in an unspecified order. */
  ghost function Records(m: map<RemarkId, Remark>): (s: seq<Remark>)
    requires RemarksKeyed(m)
    ensures Distinct(s)
    ensures forall x :: x in s <==> x.id in m && m[x.id] == x
    decreases |m|
  {
    if m == map[] then []
    else
      var k :| k in m;
      var rest := m - {k};
      assert rest.Keys == m.Keys - {k};
      assert |rest| < |m| by {
        assert |rest.Keys| == |m.Keys| - 1;
      }
      var tail := Records(rest);
      assert m[k] !in tail;
      [m[k]] + tail
  }

  /** The documents of `s` that belong to `caller` and meet `c`, in the order of `s`. */
  function Select(s: seq<Remark>, caller: UserSchema.UserId, c: Criterion): (r: seq<Remark>)
    ensures forall x :: x in r <==> x in s && Matches(x, caller, c)
    ensures Distinct(s) ==> Distinct(r)
    ensures |r| <= |s|
  {
    if s == [] then []
    else
      var tail := Select(s[1..], caller, c);
      if Matches(s[0], caller, c) then
        assert Distinct(s) ==> s[0] !in s[1..] && Distinct(s[1..]);
        [s[0]] + tail
      else
        tail
  }

  function Insert(x: Remark, s: seq<Remark>, o: Order): (r: seq<Remark>)
    requires SortedDesc(s, o)
    ensures SortedDesc(r, o)
    ensures multiset(r) == multiset(s) + multiset{x}
    ensures x !in s && Distinct(s) ==> Distinct(r)
  {
    if s == [] || Key(x, o) >= Key(s[0], o) then
      [x] + s
    else
      var tail := Insert(x, s[1..], o);
      assert s == [s[0]] + s[1..];
      InsertStep(x, s, tail, o);
      [s[0]] + tail
  }

  /** The recursive case of Insert: `s[0]` stays in front of the insertion into the rest. */
  lemma InsertStep(x: Remark, s: seq<Remark>, tail: seq<Remark>, o: Order)
    requires s != [] && SortedDesc(s, o) && Key(x, o) < Key(s[0], o)
    requires SortedDesc(tail, o) && multiset(tail) == multiset(s[1..]) + multiset{x}
    requires x !in s[1..] && Distinct(s[1..]) ==> Distinct(tail)
    ensures SortedDesc([s[0]] + tail, o)
    ensures x !in s && Distinct(s) ==> Distinct([s[0]] + tail)
  {
    assert s == [s[0]] + s[1..];
    assert forall y :: y in tail ==> y == x || y in s[1..] by {
      forall y | y in tail ensures y == x || y in s[1..] {
        assert y in multiset(tail);
      }
    }
    assert forall z :: z in tail ==> Key(z, o) <= Key(s[0], o) by {
      forall z | z in tail ensures Key(z, o) <= Key(s[0], o) {
        if z != x {
          var j :| 0 <= j < |s[1..]| && s[1..][j] == z;
          assert s[j + 1] == z;
        }
      }
    }
    PrependSorted(s[0], tail, o);
    if x !in s && Distinct(s) {
      assert s[0] !in s[1..];
      PrependDistinct(s[0], tail);
    }
  }

  lemma PrependSorted(y: Remark, t: seq<Remark>, o: Order)
    requires SortedDesc(t, o)
    requires forall z :: z in t ==> Key(z, o) <= Key(y, o)
    ensures SortedDesc([y] + t, o)
  {
    var r := [y] + t;
    forall i, j | 0 <= i < j < |r| ensures Key(r[i], o) >= Key(r[j], o) {
      assert r[j] == t[j - 1];
      if i > 0 {
        assert r[i] == t[i - 1];
      }
    }
  }

  lemma PrependDistinct(y: Remark, t: seq<Remark>)
    requires Distinct(t) && y !in t
    ensures Distinct([y] + t)
  {
    var r := [y] + t;
    forall i, j | 0 <= i < j < |r| ensures r[i] != r[j] {
      assert r[j] == t[j - 1];
      if i > 0 {
        assert r[i] == t[i - 1];
      }
    }
  }

  /** Insertion sort, largest key first; ties keep no promised order. */
  function Sort(s: seq<Remark>, o: Order): (r: seq<Remark>)
    ensures SortedDesc(r, o)
    ensures multiset(r) == multiset(s)
    ensures Distinct(s) ==> Distinct(r)
  {
    if s == [] then []
    else
      var tail := Sort(s[1..], o);
      assert s == [s[0]] + s[1..];
      HeadNotInRest(s, tail);
      Insert(s[0], tail, o)
  }

  /** In a list without repeats the head occurs in no rearrangement of the rest. */
  lemma HeadNotInRest(s: seq<Remark>, tail: seq<Remark>)
    requires s != [] && multiset(tail) == multiset(s[1..])
    ensures Distinct(s) ==> s[0] !in tail && Distinct(s[1..])
  {
    if Distinct(s) {
      assert s[0] !in s[1..];
      assert s[0] !in multiset(s[1..]);
    }
  }

  /** The caller's documents meeting `c`, each once, sorted on `o` descending. */
  ghost function Listing(m: map<RemarkId, Remark>, caller: UserSchema.UserId, c: Criterion, o: Order): (r: seq<Remark>)
    requires RemarksKeyed(m)
    ensures Distinct(r) && SortedDesc(r, o)
    ensures forall x :: x in r <==> x.id in m && m[x.id] == x && Matches(x, caller, c)
  {
    var s := Select(Records(m), caller, c);
    var r := Sort(s, o);
    assert forall x :: x in r <==> x in s by {
      forall x ensures x in r <==> x in s {
        assert x in r <==> x in multiset(r);
      }
    }
    r
  }

  /** getAllRemarks: all of the caller's remarks, latest business date first. */
  ghost function GetAllRemarks(m: map<RemarkId, Remark>, caller: UserSchema.UserId): (r: seq<Remark>)
    requires RemarksKeyed(m)
    ensures Distinct(r) && SortedDesc(r, ByDate)
    ensures forall x :: x in r <==> x.id in m && m[x.id] == x && x.user == caller
  {
    Listing(m, caller, AnyRemark, ByDate)
  }

  /** getRemarksByDate over the day window `[start, end]`, latest creation first. */
  ghost function GetRemarksByDate(m: map<RemarkId, Remark>, caller: UserSchema.UserId, start: Time, end: Time): (r: seq<Remark>)
    requires RemarksKeyed(m)
    ensures Distinct(r) && SortedDesc(r, ByCreatedAt)
    ensures forall x :: x in r <==> x.id in m && m[x.id] == x && x.user == caller && start <= x.date <= end
  {
    Listing(m, caller, DateWithin(start, end), ByCreatedAt)
  }

  /** getRemarksByStatus: the token "done" selects done remarks, any other token the rest. */
  ghost function GetRemarksByStatus(m: map<RemarkId, Remark>, caller: UserSchema.UserId, status: string): (r: seq<Remark>)
    requires RemarksKeyed(m)
    ensures Distinct(r) && SortedDesc(r, ByDate)
    ensures forall x :: x in r <==> x.id in m && m[x.id] == x && x.user == caller && x.done == (status == "done")
  {
    Listing(m, caller, DoneIs(status == "done"), ByDate)
  }

  const Priorities: seq<string> := ["low", "medium", "high"]

  /** getRemarksByPriority: 400 for a token outside low/medium/high, decided before any lookup. */
  ghost function GetRemarksByPriority(m: map<RemarkId, Remark>, caller: UserSchema.UserId, priority: string): (r: Result<seq<Remark>, Status>)
    requires RemarksKeyed(m)
    ensures r.Failure? <==> priority !in Priorities
    ensures r.Failure? ==> r.error == BadRequest
    ensures r.Success? ==> Distinct(r.value) && SortedDesc(r.value, ByDate)
    ensures r.Success? ==>
      forall x :: x in r.value <==> x.id in m && m[x.id] == x && x.user == caller && x.priority == priority
  {
    if priority !in Priorities then Failure(BadRequest)
    else Success(Listing(m, caller, PriorityIs(priority), ByDate))
  }

  /** The rejection of an unknown priority is the same whatever the store and the caller. */
  lemma PriorityRejectedWithoutLookup(m1: map<RemarkId, Remark>, m2: map<RemarkId, Remark>, c1: UserSchema.UserId, c2: UserSchema.UserId, priority: string)
    requires RemarksKeyed(m1) && RemarksKeyed(m2) && priority !in Priorities
    ensures GetRemarksByPriority(m1, c1, priority) == GetRemarksByPriority(m2, c2, priority) == Failure(BadRequest)
  {
  }

  /** The document the `$group` stage of getFinancialSummary produces. */
  datatype Summary = Summary(totalAmount: int, totalAdvance: int, totalPending: int, completedRemarks: nat, pendingRemarks: nat)

  /** The reply when the caller owns no remark. */
  const NoRemarks := Summary(0, 0, 0, 0, 0)

  function Plus(a: Summary, b: Summary): Summary {
    Summary(a.totalAmount + b.totalAmount, a.totalAdvance + b.totalAdvance, a.totalPending + b.totalPending,
            a.completedRemarks + b.completedRemarks, a.pendingRemarks + b.pendingRemarks)
  }

  /** One document's share of the sums; `$sum` skips a missing pendingAmount. */
  function Share(r: Remark): Summary {
    Summary(r.totalAmount, r.advanceAmount, if r.pendingAmount.Some? then r.pendingAmount.value else 0,
            if r.done then 1 else 0, if r.done then 0 else 1)
  }

  function Tally(s: seq<Remark>): (t: Summary)
    ensures t.completedRemarks + t.pendingRemarks == |s|
  {
    if s == [] then NoRemarks else Plus(Share(s[0]), Tally(s[1..]))
  }

  /** getFinancialSummary: the sums and counts over the caller's remarks, zeros when there are none. */
  ghost function GetFinancialSummary(m: map<RemarkId, Remark>, caller: UserSchema.UserId): (t: Summary)
    requires RemarksKeyed(m)
    ensures (forall k :: k in m ==> m[k].user != caller) ==> t == NoRemarks
  {
    var s := Select(Records(m), caller, AnyRemark);
    assert (forall k :: k in m ==> m[k].user != caller) ==> s == [] by {
      if s != [] {
        assert s[0] in s;
      }
    }
    Tally(s)
  }

  lemma {:induction false} TallyAppend(a: seq<Remark>, b: seq<Remark>)
    ensures Tally(a + b) == Plus(Tally(a), Tally(b))
    decreases |a|
  {
    if a != [] {
      assert (a + b)[1..] == a[1..] + b;
      TallyAppend(a[1..], b);
    } else {
      assert a + b == b;
    }
  }

  lemma {:induction false} RemoveAt(b: seq<Remark>, i: nat)
    requires i < |b| && Distinct(b)
    ensures Distinct(b[..i] + b[i + 1..])
    ensures forall y :: y in b[..i] + b[i + 1..] <==> y in b && y != b[i]
  {
    var rest := b[..i] + b[i + 1..];
    assert forall p :: 0 <= p < |rest| ==> rest[p] == b[if p < i then p else p + 1];
    forall y ensures y in rest <==> y in b && y != b[i] {
      if y in b && y != b[i] {
        var q :| 0 <= q < |b| && b[q] == y;
        assert rest[if q < i then q else q - 1] == y;
      }
    }
  }

  lemma PlusSwap(p: Summary, q: Summary, r: Summary)
    ensures Plus(p, Plus(q, r)) == Plus(q, Plus(p, r))
  {
  }

  lemma HeadIsMember(b: seq<Remark>)
    requires b != []
    ensures b[0] in b
  {
  }

  /** Two enumerations of the same documents have the same summary. */
  lemma {:induction false} TallySameMembers(a: seq<Remark>, b: seq<Remark>)
    requires Distinct(a) && Distinct(b)
    requires forall x :: x in a <==> x in b
    ensures Tally(a) == Tally(b)
    decreases |a|
  {
    if a == [] {
      if b != [] {
        HeadIsMember(b);
        assert false;
      }
    } else {
      var x := a[0];
      assert x in b;
      var i :| 0 <= i < |b| && b[i] == x;
      RemoveAt(b, i);
      RestOfDistinct(a);
      TallySameMembers(a[1..], b[..i] + b[i + 1..]);
      TallyRemoveAt(b, i);
    }
  }

  lemma RestOfDistinct(a: seq<Remark>)
    requires a != [] && Distinct(a)
    ensures Distinct(a[1..])
    ensures forall y :: y in a[1..] <==> y in a && y != a[0]
  {
    assert a == [a[0]] + a[1..];
  }

  /** The summary of a list is one document's share plus the summary of the list without it. */
  lemma TallyRemoveAt(b: seq<Remark>, i: nat)
    requires i < |b|
    ensures Tally(b) == Plus(Share(b[i]), Tally(b[..i] + b[i + 1..]))
  {
    var pre, mid, post := b[..i], [b[i]] + b[i + 1..], b[i + 1..];
    SplitAt(b, i);
    TallyAppend(pre, mid);
    TallyCons(b[i], post);
    TallyAppend(pre, post);
    PlusSwap(Tally(pre), Share(b[i]), Tally(post));
  }

  lemma SplitAt(b: seq<Remark>, i: nat)
    requires i < |b|
    ensures b == b[..i] + ([b[i]] + b[i + 1..])
  {
  }

  lemma TallyCons(x: Remark, s: seq<Remark>)
    ensures Tally([x] + s) == Plus(Share(x), Tally(s))
  {
    assert ([x] + s)[1..] == s;
  }

  /** Counting done and not-done over a document list counts the matching status selections. */
  lemma {:induction false} TallyCountsStatus(s: seq<Remark>, caller: UserSchema.UserId)
    ensures Tally(Select(s, caller, AnyRemark)).completedRemarks == |Select(s, caller, DoneIs(true))|
    ensures Tally(Select(s, caller, AnyRemark)).pendingRemarks == |Select(s, caller, DoneIs(false))|
  {
    if s != [] {
      TallyCountsStatus(s[1..], caller);
      var tail := Select(s[1..], caller, AnyRemark);
      assert ([s[0]] + tail)[1..] == tail;
    }
  }

  /** The summary sums exactly the documents getAllRemarks lists. */
  lemma SummaryOfListedRemarks(m: map<RemarkId, Remark>, caller: UserSchema.UserId)
    requires RemarksKeyed(m)
    ensures GetFinancialSummary(m, caller) == Tally(GetAllRemarks(m, caller))
  {
    var s := Select(Records(m), caller, AnyRemark);
    TallySameMembers(s, GetAllRemarks(m, caller));
  }

  /** completedRemarks and pendingRemarks are the sizes of the two status lists. */
  lemma SummaryCountsStatusLists(m: map<RemarkId, Remark>, caller: UserSchema.UserId, other: string)
    requires RemarksKeyed(m) && other != "done"
    ensures GetFinancialSummary(m, caller).completedRemarks == |GetRemarksByStatus(m, caller, "done")|
    ensures GetFinancialSummary(m, caller).pendingRemarks == |GetRemarksByStatus(m, caller, other)|
  {
    var s := Records(m);
    TallyCountsStatus(s, caller);
    var done := Select(s, caller, DoneIs(true));
    var notDone := Select(s, caller, DoneIs(false));
    assert |Sort(done, ByDate)| == |done| by {
      assert |multiset(Sort(done, ByDate))| == |multiset(done)|;
    }
    assert |Sort(notDone, ByDate)| == |notDone| by {
      assert |multiset(Sort(notDone, ByDate))| == |multiset(notDone)|;
    }
  }

  /** The caller's documents, keyed by id. */
  function OwnedBy(m: map<RemarkId, Remark>, caller: UserSchema.UserId): map<RemarkId, Remark> {
    map k | k in m && m[k].user == caller :: m[k]
  }

  /** Other users' documents have no effect on the caller's summary. */
  lemma SummaryIgnoresOtherUsers(m1: map<RemarkId, Remark>, m2: map<RemarkId, Remark>, caller: UserSchema.UserId)
    requires RemarksKeyed(m1) && RemarksKeyed(m2)
    requires OwnedBy(m1, caller) == OwnedBy(m2, caller)
    ensures GetFinancialSummary(m1, caller) == GetFinancialSummary(m2, caller)
  {
    var a := Select(Records(m1), caller, AnyRemark);
    var b := Select(Records(m2), caller, AnyRemark);
    forall x ensures x in a <==> x in b {
      assert x in a <==> x.id in OwnedBy(m1, caller) && OwnedBy(m1, caller)[x.id] == x && x.user == caller;
      assert x in b <==> x.id in OwnedBy(m2, caller) && OwnedBy(m2, caller)[x.id] == x && x.user == caller;
    }
    TallySameMembers(a, b);
  }
}
