/**
  The mutating half of the remark controller: create, update, delete and
  toggle-done, each run by an authenticated caller against the Remark
  collection. Update, delete and toggle share one ownership gate: a missing
  id is Not-Found before an id owned by someone else is Forbidden.
 */
module RemarkController {
  import opened Js
  import UserSchema
  import opened RemarkSchema

  /** The request body of create and update; `None` is a key the body does not carry. */
  datatype RemarkBody = RemarkBody(
    name: Option<string>,
    mobileNumber: Option<string>,
    fromAddress: Option<string>,
    toAddress: Option<string>,
    date: Option<Time>,
    content: Option<string>,
    done: Option<bool>,
    totalAmount: Option<int>,
    advanceAmount: Option<int>,
    specialNote: Option<string>,
    priority: Option<string>)

  /** A body that carries no key at all. */
  const EmptyBody := RemarkBody(None, None, None, None, None, None, None, None, None, None, None)

  /** The object literal createRemark hands to `Remark.create`, with the controller's defaults. */
  function CreationDraft(caller: UserSchema.UserId, b: RemarkBody): (d: Draft)
    ensures d.user == Some(caller)
    ensures d.done <==> b.done == Some(true)
    ensures d.totalAmount == (if b.totalAmount.Some? then b.totalAmount.value else 0)
    ensures d.advanceAmount == (if b.advanceAmount.Some? then b.advanceAmount.value else 0)
    ensures d.priority == "medium" <==> (!TruthyString(b.priority) || b.priority == Some("medium"))
    ensures TruthyString(b.priority) ==> d.priority == b.priority.value
    ensures d.name == b.name && d.mobileNumber == b.mobileNumber
    ensures d.fromAddress == b.fromAddress && d.toAddress == b.toAddress
    ensures d.date == b.date && d.content == b.content && d.specialNote == b.specialNote
  {
    Draft(
      Some(caller), b.name, b.mobileNumber, b.fromAddress, b.toAddress, b.date, b.content,
      if b.done.Some? then b.done.value else false,
      if TruthyNumber(b.totalAmount) then b.totalAmount.value else 0,
      if TruthyNumber(b.advanceAmount) then b.advanceAmount.value else 0,
      b.specialNote,
      if TruthyString(b.priority) then b.priority.value else "medium")
  }

  /** What createRemark stores for a caller, or the paths that failed validation. */
  function NewRemark(caller: UserSchema.UserId, b: RemarkBody, id: RemarkId, now: Time): (r: Result<Remark, set<Path>>)
    ensures r.Failure? <==> (b.date.None? || b.content.None? || AllSpace(b.content.value))
    ensures r.Failure? ==> r.error != {} && UserPath !in r.error
    ensures r.Success? ==>
      && r.value.user == caller && r.value.id == id && r.value.createdAt == now
      && RemarkConforms(r.value) && r.value.content == Trim(b.content.value)
      && (r.value.done <==> b.done == Some(true))
      && (!TruthyNumber(b.totalAmount) ==> r.value.totalAmount == 0)
      && (!TruthyNumber(b.advanceAmount) ==> r.value.advanceAmount == 0)
      && (!TruthyString(b.priority) ==> r.value.priority == "medium")
      && r.value.pendingAmount.None?
  {
    Instantiate(CreationDraft(caller, b), id, now)
  }

  /**
    The ownership gate of update, delete and toggle: Not-Found when the id is
    unknown, otherwise Forbidden when the caller is not the owner.
   */
  function Authorize(m: map<RemarkId, Remark>, id: RemarkId, caller: UserSchema.UserId): (s: Status)
    ensures s == Ok || s == NotFound || s == Forbidden
    ensures s == NotFound <==> id !in m
    ensures s == Forbidden <==> id in m && m[id].user != caller
    ensures s == Ok <==> id in m && m[id].user == caller
  {
    if id !in m then NotFound
    else if m[id].user != caller then Forbidden
    else Ok
  }

  /** `x || prev` for an optional string field. */
  function OrString(x: Option<string>, prev: Option<string>): (r: Option<string>)
    ensures TruthyString(x) ==> r == x
    ensures !TruthyString(x) ==> r == prev
  {
    if TruthyString(x) then x else prev
  }

  /** `x || prev` for a string path the schema trims on assignment. */
  function OrTrimmed(x: Option<string>, prev: string): (r: string)
    ensures TruthyString(x) ==> r == Trim(x.value)
    ensures !TruthyString(x) ==> r == prev
  {
    if TruthyString(x) then Trim(x.value) else prev
  }

  /** `x || prev` for a number field: 0 is falsy. */
  function OrNumber(x: Option<int>, prev: int): (r: int)
    ensures TruthyNumber(x) ==> r == x.value
    ensures !TruthyNumber(x) ==> r == prev
  {
    if TruthyNumber(x) then x.value else prev
  }

  /** `x || prev` for a string path with a default. */
  function OrValue(x: Option<string>, prev: string): (r: string)
    ensures TruthyString(x) ==> r == x.value
    ensures !TruthyString(x) ==> r == prev
  {
    if TruthyString(x) then x.value else prev
  }

  /** `x !== undefined ? x : prev` for a path that may itself be unset. */
  function OrDefined<T>(x: Option<T>, prev: Option<T>): (r: Option<T>)
    ensures x.Some? ==> r == x
    ensures x.None? ==> r == prev
  {
    if x.Some? then x else prev
  }

  /** `x !== undefined ? x : prev`. */
  function IfDefined<T>(x: Option<T>, prev: T): (r: T)
    ensures x.Some? ==> r == x.value
    ensures x.None? ==> r == prev
  {
    if x.Some? then x.value else prev
  }

  /**
    The document updateRemark saves: name, mobileNumber, the two addresses,
    date, content and priority are overwritten only by a truthy value (a
    date of 0 is falsy);
    specialNote, totalAmount, advanceAmount and done by any value that is
    present. Content goes through the `trim` setter.
   */
  function MergeRemark(r: Remark, b: RemarkBody): (u: Remark)
    ensures u.id == r.id && u.user == r.user && u.createdAt == r.createdAt
    ensures u.pendingAmount == r.pendingAmount
    ensures TruthyString(b.name) ==> u.name == b.name
    ensures !TruthyString(b.name) ==> u.name == r.name
    ensures TruthyString(b.mobileNumber) ==> u.mobileNumber == b.mobileNumber
    ensures !TruthyString(b.mobileNumber) ==> u.mobileNumber == r.mobileNumber
    ensures TruthyString(b.fromAddress) ==> u.fromAddress == b.fromAddress
    ensures !TruthyString(b.fromAddress) ==> u.fromAddress == r.fromAddress
    ensures TruthyString(b.toAddress) ==> u.toAddress == b.toAddress
    ensures !TruthyString(b.toAddress) ==> u.toAddress == r.toAddress
    ensures TruthyNumber(b.date) ==> u.date == b.date.value
    ensures !TruthyNumber(b.date) ==> u.date == r.date
    ensures TruthyString(b.content) ==> u.content == Trim(b.content.value)
    ensures !TruthyString(b.content) ==> u.content == r.content
    ensures TruthyString(b.priority) ==> u.priority == b.priority.value
    ensures !TruthyString(b.priority) ==> u.priority == r.priority
    ensures b.specialNote.Some? ==> u.specialNote == b.specialNote
    ensures b.specialNote.None? ==> u.specialNote == r.specialNote
    ensures b.totalAmount.Some? ==> u.totalAmount == b.totalAmount.value
    ensures b.totalAmount.None? ==> u.totalAmount == r.totalAmount
    ensures b.advanceAmount.Some? ==> u.advanceAmount == b.advanceAmount.value
    ensures b.advanceAmount.None? ==> u.advanceAmount == r.advanceAmount
    ensures b.done.Some? ==> u.done == b.done.value
    ensures b.done.None? ==> u.done == r.done
    ensures b == EmptyBody ==> u == r
  {
    r.(
      name := OrString(b.name, r.name),
      mobileNumber := OrString(b.mobileNumber, r.mobileNumber),
      fromAddress := OrString(b.fromAddress, r.fromAddress),
      toAddress := OrString(b.toAddress, r.toAddress),
      date := OrNumber(b.date, r.date),
      content := OrTrimmed(b.content, r.content),
      specialNote := OrDefined(b.specialNote, r.specialNote),
      priority := OrValue(b.priority, r.priority),
      totalAmount := IfDefined(b.totalAmount, r.totalAmount),
      advanceAmount := IfDefined(b.advanceAmount, r.advanceAmount),
      done := IfDefined(b.done, r.done))
  }

  /** The body that, applied once, has the effect of applying `b1` and then `b2`. */
  function Then(b1: RemarkBody, b2: RemarkBody): RemarkBody {
    RemarkBody(
      OrString(b2.name, b1.name),
      OrString(b2.mobileNumber, b1.mobileNumber),
      OrString(b2.fromAddress, b1.fromAddress),
      OrString(b2.toAddress, b1.toAddress),
      if TruthyNumber(b2.date) then b2.date else b1.date,
      OrString(b2.content, b1.content),
      if b2.done.Some? then b2.done else b1.done,
      if b2.totalAmount.Some? then b2.totalAmount else b1.totalAmount,
      if b2.advanceAmount.Some? then b2.advanceAmount else b1.advanceAmount,
      if b2.specialNote.Some? then b2.specialNote else b1.specialNote,
      OrString(b2.priority, b1.priority))
  }

  /** Sending the same update twice leaves the document as the first send left it. */
  lemma MergeIdempotent(r: Remark, b: RemarkBody)
    ensures MergeRemark(MergeRemark(r, b), b) == MergeRemark(r, b)
  {
    var u := MergeRemark(r, b);
    var v := MergeRemark(u, b);
    assert v.content == u.content;
  }

  /** Two updates in a row are one update with the later body's keys winning. */
  lemma MergeComposes(r: Remark, b1: RemarkBody, b2: RemarkBody)
    ensures MergeRemark(MergeRemark(r, b1), b2) == MergeRemark(r, Then(b1, b2))
  {
    var x := MergeRemark(MergeRemark(r, b1), b2);
    var y := MergeRemark(r, Then(b1, b2));
    assert x.content == y.content;
  }

  /**
    Empty strings, zero and false in the truthy-overwrite fields keep the old
    values, while the same falsy values in the defined-overwrite fields are
    written.
   */
  lemma FalsyValuesSplitByField(r: Remark, note: string)
    ensures var b := RemarkBody(Some(""), Some(""), Some(""), Some(""), Some(0), Some(""),
                                Some(false), Some(0), Some(0), Some(note), Some(""));
            MergeRemark(r, b) == r.(done := false, totalAmount := 0, advanceAmount := 0, specialNote := Some(note))
  {
  }

  /** The document toggleRemarkDone saves. */
  function Toggled(r: Remark): (u: Remark)
    ensures u.done == !r.done
    ensures u.(done := r.done) == r
  {
    r.(done := !r.done)
  }

  lemma ToggleInvolution(r: Remark)
    ensures Toggled(Toggled(r)) == r
  {
  }

  /** createRemark: 201 with the stored document, or 500 when validation fails. */
  method CreateRemark(db: RemarkCollection, caller: UserSchema.UserId, body: RemarkBody, now: Time)
    returns (status: Status, created: Option<Remark>)
    requires db.Valid()
    modifies db
    ensures db.Valid()
    ensures match NewRemark(caller, body, old(db.nextId), now)
      case Success(r) =>
        status == Created && created == Some(r)
        && old(db.nextId) !in old(db.remarks) && db.remarks == old(db.remarks)[r.id := r]
      case Failure(_) =>
        status == ServerError && created == None && db.remarks == old(db.remarks)
  {
    var draft := CreationDraft(caller, body);
    var r := db.Create(draft, now);
    if r.Failure? {
      return ServerError, None;
    }
    return Created, Some(r.value);
  }

  /** updateRemark: the gate, then the field-by-field merge, then save. */
  method UpdateRemark(db: RemarkCollection, caller: UserSchema.UserId, id: RemarkId, body: RemarkBody)
    returns (status: Status, updated: Option<Remark>)
    requires db.Valid()
    modifies db
    ensures db.Valid()
    ensures Authorize(old(db.remarks), id, caller) != Ok ==>
      status == Authorize(old(db.remarks), id, caller) && updated == None && db.remarks == old(db.remarks)
    ensures Authorize(old(db.remarks), id, caller) == Ok ==>
      var u := MergeRemark(old(db.remarks)[id], body);
      if RemarkConforms(u) then
        status == Ok && updated == Some(u) && db.remarks == old(db.remarks)[id := u]
      else
        status == ServerError && updated == None && db.remarks == old(db.remarks)
  {
    if id !in db.remarks {
      return NotFound, None;
    }
    var remark := db.remarks[id];
    if remark.user != caller {
      return Forbidden, None;
    }
    remark := remark.(name := OrString(body.name, remark.name));
    remark := remark.(mobileNumber := OrString(body.mobileNumber, remark.mobileNumber));
    remark := remark.(fromAddress := OrString(body.fromAddress, remark.fromAddress));
    remark := remark.(toAddress := OrString(body.toAddress, remark.toAddress));
    remark := remark.(date := OrNumber(body.date, remark.date));
    remark := remark.(content := OrTrimmed(body.content, remark.content));
    remark := remark.(specialNote := OrDefined(body.specialNote, remark.specialNote));
    remark := remark.(priority := OrValue(body.priority, remark.priority));
    if body.totalAmount.Some? {
      remark := remark.(totalAmount := body.totalAmount.value);
    }
    if body.advanceAmount.Some? {
      remark := remark.(advanceAmount := body.advanceAmount.value);
    }
    if body.done.Some? {
      remark := remark.(done := body.done.value);
    }
    assert remark == MergeRemark(old(db.remarks)[id], body);
    var ok := db.Save(remark);
    if !ok {
      return ServerError, None;
    }
    return Ok, Some(remark);
  }

  /** deleteRemark: the gate, then removal of exactly the target document. */
  method DeleteRemark(db: RemarkCollection, caller: UserSchema.UserId, id: RemarkId) returns (status: Status)
    requires db.Valid()
    modifies db
    ensures db.Valid()
    ensures status == Authorize(old(db.remarks), id, caller)
    ensures status != Ok ==> db.remarks == old(db.remarks)
    ensures status == Ok ==> db.remarks == old(db.remarks) - {id}
    ensures forall k :: k in old(db.remarks) && k != id ==> k in db.remarks && db.remarks[k] == old(db.remarks)[k]
  {
    if id !in db.remarks {
      return NotFound;
    }
    var remark := db.remarks[id];
    if remark.user != caller {
      return Forbidden;
    }
    db.Delete(id);
    return Ok;
  }

  /** toggleRemarkDone: the gate, then `done` negated and saved. */
  method ToggleRemarkDone(db: RemarkCollection, caller: UserSchema.UserId, id: RemarkId)
    returns (status: Status, updated: Option<Remark>)
    requires db.Valid()
    modifies db
    ensures db.Valid()
    ensures status == Authorize(old(db.remarks), id, caller)
    ensures status != Ok ==> updated == None && db.remarks == old(db.remarks)
    ensures status == Ok ==>
      updated == Some(Toggled(old(db.remarks)[id]))
      && db.remarks == old(db.remarks)[id := Toggled(old(db.remarks)[id])]
  {
    if id !in db.remarks {
      return NotFound, None;
    }
    var remark := db.remarks[id];
    if remark.user != caller {
      return Forbidden, None;
    }
    remark := remark.(done := !remark.done);
    var ok := db.Save(remark);
    assert ok;
    return Ok, Some(remark);
  }
}
