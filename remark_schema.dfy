/**
  The Remark model: the record the remark controller reads and writes, the
  schema's required paths, the `trim` setter on content, the `createdAt`
  default, and the collection the controller creates, saves and deletes in.
 */
module RemarkSchema {
  import opened Js
  import UserSchema

  type RemarkId = nat

  /** The schema paths whose `required` validator can fail. */
  datatype Path = UserPath | DatePath | ContentPath

  /**
    A stored remark. The schema file declares only user, date, content and
    createdAt; the controller also writes the remaining fields, so the record
    carries the controller's fields. `pendingAmount` is read by the summary
    and written by nothing.
   */
  datatype Remark = Remark(
    id: RemarkId,
    user: UserSchema.UserId,
    name: Option<string>,
    mobileNumber: Option<string>,
    fromAddress: Option<string>,
    toAddress: Option<string>,
    date: Time,
    content: string,
    done: bool,
    totalAmount: int,
    advanceAmount: int,
    pendingAmount: Option<int>,
    specialNote: Option<string>,
    priority: string,
    createdAt: Time)

  /** The object handed to `Remark.create`, before setters, defaults and validation. */
  datatype Draft = Draft(
    user: Option<UserSchema.UserId>,
    name: Option<string>,
    mobileNumber: Option<string>,
    fromAddress: Option<string>,
    toAddress: Option<string>,
    date: Option<Time>,
    content: Option<string>,
    done: bool,
    totalAmount: int,
    advanceAmount: int,
    specialNote: Option<string>,
    priority: string)

  /** The `required` validators: a missing user, a missing date, a content that trims to nothing. */
  function MissingPaths(user: Option<UserSchema.UserId>, date: Option<Time>, content: Option<string>): (errs: set<Path>)
    ensures UserPath in errs <==> user.None?
    ensures DatePath in errs <==> date.None?
    ensures ContentPath in errs <==> (content.None? || AllSpace(content.value))
  {
    (if user.None? then {UserPath} else {})
    + (if date.None? then {DatePath} else {})
    + (if content.None? || Trim(content.value) == "" then {ContentPath} else {})
  }

  /** What a remark that went through the content setter and passed validation looks like. */
  predicate RemarkConforms(r: Remark) {
    r.content != [] && IsTrimmed(r.content)
  }

  /** Every document is stored under its own `_id`. */
  predicate RemarksKeyed(m: map<RemarkId, Remark>) {
    forall k :: k in m ==> m[k].id == k
  }

  /** `Remark.create(d)`: trims content, fills in `createdAt`, then validates. */
  function Instantiate(d: Draft, id: RemarkId, now: Time): (r: Result<Remark, set<Path>>)
    ensures r.Failure? <==> (d.user.None? || d.date.None? || d.content.None? || AllSpace(d.content.value))
    ensures r.Failure? ==> r.error == MissingPaths(d.user, d.date, d.content) && r.error != {}
    ensures r.Success? ==>
      && RemarkConforms(r.value)
      && r.value.id == id
      && Some(r.value.user) == d.user
      && Some(r.value.date) == d.date
      && r.value.content == Trim(d.content.value)
      && r.value.createdAt == now
      && r.value.pendingAmount.None?
      && r.value.name == d.name && r.value.mobileNumber == d.mobileNumber
      && r.value.fromAddress == d.fromAddress && r.value.toAddress == d.toAddress
      && r.value.done == d.done && r.value.totalAmount == d.totalAmount
      && r.value.advanceAmount == d.advanceAmount && r.value.specialNote == d.specialNote
      && r.value.priority == d.priority
  {
    var errs := MissingPaths(d.user, d.date, d.content);
    if errs != {} then
      Failure(errs)
    else
      Success(Remark(id, d.user.value, d.name, d.mobileNumber, d.fromAddress, d.toAddress,
                     d.date.value, Trim(d.content.value), d.done, d.totalAmount, d.advanceAmount,
                     None, d.specialNote, d.priority, now))
  }

  /** The Remark collection: its documents by id and the next id it hands out. */
  class RemarkCollection {
    var remarks: map<RemarkId, Remark>
    var nextId: RemarkId

    ghost predicate Valid()
      reads this
    {
      && RemarksKeyed(remarks)
      && forall k :: k in remarks ==> k < nextId && RemarkConforms(remarks[k])
    }

    constructor ()
      ensures Valid() && remarks == map[]
    {
      remarks := map[];
      nextId := 0;
    }

    /** `Remark.create`: inserts a fresh document when validation passes. */
    method Create(d: Draft, now: Time) returns (r: Result<Remark, set<Path>>)
      requires Valid()
      modifies this
      ensures Valid()
      ensures r == Instantiate(d, old(nextId), now)
      ensures r.Success? ==> old(nextId) !in old(remarks) && remarks == old(remarks)[old(nextId) := r.value]
      ensures r.Failure? ==> remarks == old(remarks)
    {
      r := Instantiate(d, nextId, now);
      if r.Success? {
        Insert(r.value);
      }
    }

    /** Stores a validated document under the next id. */
    method Insert(doc: Remark)
      requires Valid() && doc.id == nextId && RemarkConforms(doc)
      modifies this
      ensures Valid()
      ensures nextId == old(nextId) + 1
      ensures old(nextId) !in old(remarks) && remarks == old(remarks)[doc.id := doc]
    {
      remarks := remarks[nextId := doc];
      nextId := nextId + 1;
    }

    /** `doc.save()` on a document already in the collection: validation, then write. */
    method Save(doc: Remark) returns (ok: bool)
      requires Valid() && doc.id in remarks
      modifies this
      ensures Valid() && nextId == old(nextId)
      ensures ok == RemarkConforms(doc)
      ensures remarks == if ok then old(remarks)[doc.id := doc] else old(remarks)
    {
      ok := RemarkConforms(doc);
      if ok {
        remarks := remarks[doc.id := doc];
      }
    }

    /** `doc.deleteOne()`. */
    method Delete(id: RemarkId)
      requires Valid()
      modifies this
      ensures Valid() && nextId == old(nextId)
      ensures remarks == old(remarks) - {id}
    {
      remarks := remarks - {id};
    }
  }
}
