/**
 * The visitor request handlers (backend/controllers/visitorController.js)
 * over an abstract document store.
 *
 * The store is a sequence of Visitor documents in insertion order together
 * with the next identifier it hands out. Whether the store's own call
 * succeeds is outside the handlers' control: each handler takes the store's
 * outcome as a parameter, so every proof covers both outcomes.
 */
module VisitorController {
  import opened Js
  import opened VisitorSchema
  import Http

  /** The request body of `POST /api/visitors`; `None` is an absent field. */
  datatype CreateBody = CreateBody(
    name: Option<string>,
    phone: Option<string>,
    purpose: Option<string>,
    host: Option<string>,
    checkIn: Option<string>,
    status: Option<string>)

  /** The JSON bodies the handlers answer with. */
  datatype Body = VisitorBody(visitor: Visitor) | VisitorListBody(visitors: seq<Visitor>) | MessageBody(message: string)

  type Reply = Http.Response<Body>

  /** What the store's call does besides validation: succeed, or fail with an error message. */
  datatype StoreOutcome = Stored | StoreFailed(message: string)

  /** The TypeError message of reading `req.user.id` when no user is attached to the request. */
  const MissingUserMessage := "Cannot read properties of undefined (reading 'id')"

  /** A body field is passed on only when it is truthy (`checkIn ? new Date(checkIn) : undefined`). */
  function CheckInOf(body: CreateBody, parseDate: string -> DateValue): (r: Option<DateValue>)
    ensures r.None? <==> body.checkIn.None? || body.checkIn.value == ""
    ensures r.Some? ==> r.value == parseDate(body.checkIn.value)
  {
    if body.checkIn.Some? && Truthy(body.checkIn.value) then Some(parseDate(body.checkIn.value)) else None
  }

  /** The fields `addVisitor` hands to `Visitor.create`. */
  function CreateInput(userId: UserId, body: CreateBody, parseDate: string -> DateValue): (r: VisitorInput)
    ensures r.userId == Some(userId) && r.checkOut.None?
    ensures r.name == body.name && r.phone == body.phone && r.purpose == body.purpose && r.host == body.host
    ensures r.status == body.status && r.checkIn == CheckInOf(body, parseDate)
    ensures Accepts(r) <==>
      && body.name.Some? && !IsBlank(body.name.value)
      && (body.checkIn.None? || body.checkIn.value == "" || parseDate(body.checkIn.value).ValidDate?)
      && (body.status.None? || body.status.value == "In" || body.status.value == "Out")
  {
    VisitorInput(Some(userId), body.name, body.phone, body.purpose, body.host,
                 CheckInOf(body, parseDate), None, body.status)
  }

  /** Creation times never increase along `s`: newest first. */
  predicate NewestFirst(s: seq<Visitor>) {
    forall i, j :: 0 <= i < j < |s| ==> s[i].createdAt >= s[j].createdAt
  }

  /** The documents of `s` owned by `uid`, in store order (`find({ userId })`). */
  function OwnedBy(s: seq<Visitor>, uid: UserId): (r: seq<Visitor>)
    ensures forall v :: v in r <==> v in s && v.userId == Some(uid)
    ensures forall v :: multiset(r)[v] == if v.userId == Some(uid) then multiset(s)[v] else 0
    ensures |r| <= |s|
  {
    if s == [] then []
    else
      assert s == [s[0]] + s[1..];
      (if s[0].userId == Some(uid) then [s[0]] else []) + OwnedBy(s[1..], uid)
  }

  /** `v` placed before the first document of the newest-first `s` that is not newer. */
  function InsertNewestFirst(v: Visitor, s: seq<Visitor>): (r: seq<Visitor>)
    requires NewestFirst(s)
    ensures NewestFirst(r)
    ensures multiset(r) == multiset(s) + multiset{v}
  {
    if s == [] || s[0].createdAt <= v.createdAt then [v] + s
    else
      var rest := InsertNewestFirst(v, s[1..]);
      assert s == [s[0]] + s[1..];
      assert forall k :: 0 <= k < |rest| ==> rest[k].createdAt <= s[0].createdAt by {
        forall k | 0 <= k < |rest| ensures rest[k].createdAt <= s[0].createdAt {
          assert rest[k] in multiset(rest);
          if rest[k] != v {
            assert rest[k] in multiset(s[1..]);
          }
        }
      }
      [s[0]] + rest
  }

  /** `.sort({ createdAt: -1 })`; documents with equal creation times keep their store order. */
  function SortNewestFirst(s: seq<Visitor>): (r: seq<Visitor>)
    ensures NewestFirst(r)
    ensures multiset(r) == multiset(s)
  {
    if s == [] then []
    else
      assert s == [s[0]] + s[1..];
      InsertNewestFirst(s[0], SortNewestFirst(s[1..]))
  }

  /** The list `getVisitors` answers with. */
  function Listing(records: seq<Visitor>, uid: UserId): (r: seq<Visitor>)
    ensures NewestFirst(r)
    ensures multiset(r) == multiset(OwnedBy(records, uid))
  {
    SortNewestFirst(OwnedBy(records, uid))
  }

  /**
   * The listing holds exactly the documents owned by the requester, each as
   * often as the store holds it, newest first.
   */
  lemma {:induction false} ListingContract(records: seq<Visitor>, uid: UserId)
    ensures NewestFirst(Listing(records, uid))
    ensures multiset(Listing(records, uid)) == multiset(OwnedBy(records, uid))
    ensures forall v :: v in Listing(records, uid) <==> v in records && v.userId == Some(uid)
  {
    var r := Listing(records, uid);
    forall v
      ensures v in r <==> v in records && v.userId == Some(uid)
    {
      assert v in r <==> v in multiset(r);
      assert v in OwnedBy(records, uid) <==> v in multiset(OwnedBy(records, uid));
    }
  }

  /** Every document is well formed and has its own identifier, below `nextId`. */
  ghost predicate ValidStore(records: seq<Visitor>, nextId: nat) {
    && (forall i :: 0 <= i < |records| ==> WellFormed(records[i]) && records[i].id < nextId)
    && (forall i, j :: 0 <= i < j < |records| ==> records[i].id != records[j].id)
  }

  /** Inserting a well-formed document under the next identifier keeps the store valid. */
  lemma InsertKeepsStoreValid(records: seq<Visitor>, nextId: nat, v: Visitor)
    requires ValidStore(records, nextId)
    requires WellFormed(v) && v.id == nextId
    ensures ValidStore(records + [v], nextId + 1)
  {
    var r := records + [v];
    assert forall i :: 0 <= i < |records| ==> r[i] == records[i];
  }

  /**
   * The document a successful `addVisitor` stores: owned by the requester,
   * with the body's fields as the schema normalises them.
   */
  lemma CreatedFromBody(user: UserId, body: CreateBody, parseDate: string -> DateValue, id: nat, now: Timestamp)
    requires Accepts(CreateInput(user, body, parseDate))
    ensures var v := Create(CreateInput(user, body, parseDate), id, now).value;
      && v.id == id && v.createdAt == now && v.updatedAt == now
      && v.userId == Some(user)
      && v.name == Trim(body.name.value) && v.name != ""
      && v.phone == TrimField(body.phone) && v.purpose == TrimField(body.purpose) && v.host == TrimField(body.host)
      && (v.checkIn.None? <==> CheckInOf(body, parseDate).None?)
      && v.checkIn == TimeOf(CheckInOf(body, parseDate))
      && v.checkOut.None?
      && StatusName(v.status) == (if body.status.None? then "In" else body.status.value)
  {
    var input := CreateInput(user, body, parseDate);
    var v := Create(input, id, now).value;
    assert v.checkIn == TimeOf(input.checkIn);
    if CheckInOf(body, parseDate).Some? {
      assert input.checkIn.value != InvalidDate;
      assert input.checkIn.value.ValidDate?;
    }
  }

  class VisitorStore {
    var records: seq<Visitor>
    var nextId: nat

    ghost predicate Valid()
      reads this
    {
      ValidStore(records, nextId)
    }

    constructor ()
      ensures Valid() && records == [] && nextId == 0
    {
      records := [];
      nextId := 0;
    }

    /**
     * `addVisitor`: `user` is `req.user.id` (`None` when no user is attached),
     * `parseDate` is `new Date(...)`, `now` the store's clock.
     */
    method AddVisitor(user: Option<UserId>, body: CreateBody, parseDate: string -> DateValue,
                      now: Timestamp, outcome: StoreOutcome) returns (res: Reply)
      requires Valid()
      modifies this
      ensures Valid()
      ensures res.status == Http.CreatedStatus || res.status == Http.ServerErrorStatus
      ensures nextId == if res.status == Http.CreatedStatus then old(nextId) + 1 else old(nextId)
      ensures res.status == Http.CreatedStatus <==>
                user.Some? && Accepts(CreateInput(user.value, body, parseDate)) && outcome == Stored
      ensures res.status == Http.CreatedStatus ==>
                && res.body.VisitorBody?
                && records == old(records) + [res.body.visitor]
                && res.body.visitor == Create(CreateInput(user.value, body, parseDate), old(nextId), now).value
                && res.body.visitor.userId == user
                && res.body.visitor.name == Trim(body.name.value)
                && (res.body.visitor.checkIn.None? <==> CheckInOf(body, parseDate).None?)
                && StatusName(res.body.visitor.status) == (if body.status.None? then "In" else body.status.value)
      ensures res.status == Http.ServerErrorStatus ==> records == old(records) && res.body.MessageBody?
      ensures user.None? ==> res.body == MessageBody(MissingUserMessage)
      ensures user.Some? && !Accepts(CreateInput(user.value, body, parseDate)) ==>
                res.body == MessageBody(ValidationMessage(Create(CreateInput(user.value, body, parseDate), old(nextId), now).error))
      ensures user.Some? && Accepts(CreateInput(user.value, body, parseDate)) && outcome.StoreFailed? ==>
                res.body == MessageBody(outcome.message)
    {
      if user.None? {
        return Http.Response(Http.ServerErrorStatus, MessageBody(MissingUserMessage));
      }
      var created := Create(CreateInput(user.value, body, parseDate), nextId, now);
      if created.Err? {
        return Http.Response(Http.ServerErrorStatus, MessageBody(ValidationMessage(created.error)));
      }
      if outcome.StoreFailed? {
        return Http.Response(Http.ServerErrorStatus, MessageBody(outcome.message));
      }
      CreatedFromBody(user.value, body, parseDate, nextId, now);
      InsertKeepsStoreValid(records, nextId, created.value);
      records := records + [created.value];
      nextId := nextId + 1;
      res := Http.Response(Http.CreatedStatus, VisitorBody(created.value));
    }

    /** `getVisitors`: reads the store and never changes it. */
    method GetVisitors(user: Option<UserId>, outcome: StoreOutcome) returns (res: Reply)
      ensures user.None? ==> res == Http.Response(Http.ServerErrorStatus, MessageBody(MissingUserMessage))
      ensures user.Some? && outcome.StoreFailed? ==>
                res == Http.Response(Http.ServerErrorStatus, MessageBody(outcome.message))
      ensures user.Some? && outcome == Stored ==>
                && res.status == Http.OkStatus && res.body.VisitorListBody?
                && NewestFirst(res.body.visitors)
                && multiset(res.body.visitors) == multiset(OwnedBy(records, user.value))
                && (forall v :: v in res.body.visitors <==> v in records && v.userId == user)
    {
      if user.None? {
        return Http.Response(Http.ServerErrorStatus, MessageBody(MissingUserMessage));
      }
      if outcome.StoreFailed? {
        return Http.Response(Http.ServerErrorStatus, MessageBody(outcome.message));
      }
      ListingContract(records, user.value);
      res := Http.Response(Http.OkStatus, VisitorListBody(Listing(records, user.value)));
    }
  }
}
