/** The transaction handlers: listing the caller's transactions, newest first, and creating
    one for the caller. The caller is whatever the authentication middleware attached to
    the request. */
module TransactionController {
  import opened JsValues
  import opened TransactionModel

  /** `req.user`, when present; its `_id` may be missing. */
  datatype RequestUser = RequestUser(id: Option<ObjectId>)

  /** The fields of the request body the handler reads. */
  datatype CreateBody = CreateBody(amount: Option<int>, description: Option<string>, status: Option<string>)

  datatype Body = TransactionList(list: seq<Transaction>) | Record(record: Transaction) | Message(message: string)

  datatype Response = Response(status: int, body: Body)

  /** The records owned by `uid`, in store order. */
  function Owned(records: seq<Transaction>, uid: ObjectId): (r: seq<Transaction>)
    ensures forall t :: t in r <==> t in records && t.userId == uid
    ensures forall i :: 0 <= i < |r| ==> r[i].userId == uid
    ensures forall t :: multiset(r)[t] == if t.userId == uid then multiset(records)[t] else 0
    decreases |records|
  {
    if records == [] then []
    else
      assert records == [records[0]] + records[1..];
      assert multiset(records) == multiset{records[0]} + multiset(records[1..]);
      var rest := Owned(records[1..], uid);
      if records[0].userId == uid then [records[0]] + rest else rest
  }

  /** Newest first; records with the same date may come in either order. */
  predicate NewestFirst(s: seq<Transaction>) {
    forall i, j :: 0 <= i < j < |s| ==> s[i].date >= s[j].date
  }

  /** Inserts `t` before the first record that is not newer than it. */
  function InsertByDate(t: Transaction, s: seq<Transaction>): (r: seq<Transaction>)
    requires NewestFirst(s)
    ensures NewestFirst(r)
    ensures multiset(r) == multiset(s) + multiset{t}
    ensures forall x :: x in r ==> x == t || x in s
    decreases |s|
  {
    if s == [] || t.date >= s[0].date then [t] + s
    else
      var rest := InsertByDate(t, s[1..]);
      assert s == [s[0]] + s[1..];
      HeadNotOlder(s[0], t, s[1..], rest);
      ConsNewestFirst(s[0], rest);
      [s[0]] + rest
  }

  /** A record newer than `t` and than all of `tail` is newer than every record of a
      sequence made of `t` and `tail`'s records. */
  lemma HeadNotOlder(head: Transaction, t: Transaction, tail: seq<Transaction>, rest: seq<Transaction>)
    requires head.date >= t.date
    requires forall k :: 0 <= k < |tail| ==> head.date >= tail[k].date
    requires forall x :: x in rest ==> x == t || x in tail
    ensures forall k :: 0 <= k < |rest| ==> head.date >= rest[k].date
  {
    forall k | 0 <= k < |rest|
      ensures head.date >= rest[k].date
    {
      assert rest[k] in rest;
      if rest[k] != t {
        var j :| 0 <= j < |tail| && tail[j] == rest[k];
      }
    }
  }

  /** Putting a record no older than any of a newest-first sequence in front keeps it
      newest first. */
  lemma ConsNewestFirst(head: Transaction, rest: seq<Transaction>)
    requires NewestFirst(rest)
    requires forall k :: 0 <= k < |rest| ==> head.date >= rest[k].date
    ensures NewestFirst([head] + rest)
  {
    var r := [head] + rest;
    forall i, j | 0 <= i < j < |r|
      ensures r[i].date >= r[j].date
    {
      if i == 0 {
        assert r[j] == rest[j - 1];
      } else {
        assert r[i] == rest[i - 1] && r[j] == rest[j - 1];
      }
    }
  }

  /** `.sort({ date: -1 })`. */
  function SortByDateDesc(s: seq<Transaction>): (r: seq<Transaction>)
    ensures NewestFirst(r)
    ensures multiset(r) == multiset(s)
    decreases |s|
  {
    if s == [] then []
    else
      assert s == [s[0]] + s[1..];
      InsertByDate(s[0], SortByDateDesc(s[1..]))
  }

  const FetchServerError: string := "Server error fetching transactions"
  const CreateServerError: string := "Server error creating transaction"

  /** `getTransactions`: the caller's transactions, newest first. Reading `_id` of a
      missing user throws and, like a failed query, answers 500. A user without an id
      owns no record, since every record has an owner. */
  function ListFor(records: seq<Transaction>, user: Option<RequestUser>, queryFails: bool): (r: Response)
    ensures r.status == 200 <==> user.Some? && !queryFails
    ensures r.status != 200 ==> r == Response(500, Message(FetchServerError))
    ensures r.status == 200 && user.value.id.None? ==> r.body == TransactionList([])
    ensures r.status == 200 && user.value.id.Some? ==>
              r.body.TransactionList? && NewestFirst(r.body.list) &&
              multiset(r.body.list) == multiset(Owned(records, user.value.id.value))
  {
    if user.None? || queryFails then Response(500, Message(FetchServerError))
    else if user.value.id.None? then Response(200, TransactionList([]))
    else Response(200, TransactionList(SortByDateDesc(Owned(records, user.value.id.value))))
  }

  /** The listing holds exactly the caller's records, each as often as it is stored. */
  lemma ListedIffOwned(records: seq<Transaction>, uid: ObjectId)
    ensures var r := ListFor(records, Some(RequestUser(Some(uid))), false);
            (forall t :: t in r.body.list <==> t in records && t.userId == uid) &&
            (forall t :: multiset(r.body.list)[t] == if t.userId == uid then multiset(records)[t] else 0)
  {
    var r := ListFor(records, Some(RequestUser(Some(uid))), false);
    forall t
      ensures t in r.body.list <==> t in records && t.userId == uid
    {
      assert t in r.body.list <==> t in multiset(r.body.list);
      assert t in Owned(records, uid) <==> t in multiset(Owned(records, uid));
    }
  }

  /** The draft the handler hands to the schema: the caller as owner and `status ||
      'completed'`. */
  function DraftFor(uid: ObjectId, body: CreateBody): (d: Draft)
    ensures d.userId == Some(uid) && d.amount == body.amount && d.description == body.description
    ensures Truthy(body.status) ==> d.status == body.status
    ensures !Truthy(body.status) ==> d.status == Some(StatusName(Completed))
  {
    Draft(Some(uid), body.amount, body.description,
          if Truthy(body.status) then body.status else Some("completed"))
  }

  /** The collection of saved transactions. */
  class TransactionCollection {
    var records: seq<Transaction>
    var nextId: ObjectId

    constructor ()
      ensures records == [] && nextId == 0
    {
      records, nextId := [], 0;
    }

    /** The listing request, answered from the current records: 500 without a user or
        when the query fails, and otherwise the caller's records, newest first, each as
        often as it is stored. */
    function GetTransactions(user: Option<RequestUser>, queryFails: bool): (r: Response)
      reads this
      ensures r.status == 200 <==> user.Some? && !queryFails
      ensures r.status != 200 ==> r == Response(500, Message(FetchServerError))
      ensures r.status == 200 ==> r.body.TransactionList? && NewestFirst(r.body.list)
      ensures r.status == 200 && user.value.id.None? ==> r.body.list == []
      ensures r.status == 200 && user.value.id.Some? ==>
                var uid := user.value.id.value;
                (forall t :: t in r.body.list <==> t in records && t.userId == uid) &&
                (forall t :: multiset(r.body.list)[t] == if t.userId == uid then multiset(records)[t] else 0)
    {
      if user.Some? && user.value.id.Some? && !queryFails then
        ListedIffOwned(records, user.value.id.value);
        ListFor(records, user, queryFails)
      else
        ListFor(records, user, queryFails)
    }

    /** `createTransaction`, at clock reading `now`. Without a user or its id the reply
        is 401 and nothing is saved. Otherwise the schema builds the record; a failed
        validation or save answers 500 and saves nothing, and a saved record is appended
        and returned with 201. */
    method CreateTransaction(user: Option<RequestUser>, body: CreateBody, now: int, saveFails: bool) returns (r: Response)
      modifies this
      ensures (user.None? || user.value.id.None?) ==>
                r == Response(401, Message("Unauthorized")) && records == old(records) && nextId == old(nextId)
      ensures user.Some? && user.value.id.Some? ==>
                var built := Build(old(nextId), DraftFor(user.value.id.value, body), now);
                if built.Valid? && !saveFails then
                  r == Response(201, Record(built.value)) && records == old(records) + [built.value] &&
                  nextId == old(nextId) + 1
                else
                  r == Response(500, Message(CreateServerError)) && records == old(records) && nextId == old(nextId)
    {
      if user.None? || user.value.id.None? {
        return Response(401, Message("Unauthorized"));
      }
      var built := Build(nextId, DraftFor(user.value.id.value, body), now);
      if built.Invalid? || saveFails {
        return Response(500, Message(CreateServerError));
      }
      records := records + [built.value];
      nextId := nextId + 1;
      r := Response(201, Record(built.value));
    }
  }

  /** A record created for a caller shows up in that caller's listing, and in nobody
      else's. */
  lemma CreatedIsListed(records: seq<Transaction>, t: Transaction, uid: ObjectId, other: ObjectId)
    requires t.userId == uid && other != uid
    ensures t in ListFor(records + [t], Some(RequestUser(Some(uid))), false).body.list
    ensures t !in ListFor(records + [t], Some(RequestUser(Some(other))), false).body.list
  {
    ListedIffOwned(records + [t], uid);
    ListedIffOwned(records + [t], other);
  }

  /** A created record is owned by the caller, with the status it was given, or
      `completed` when none was. */
  lemma CreatedRecordFields(uid: ObjectId, body: CreateBody, id: ObjectId, now: int)
    requires Build(id, DraftFor(uid, body), now).Valid?
    ensures var t := Build(id, DraftFor(uid, body), now).value;
            t.userId == uid && t.currency == "USD" && t.date == now &&
            (!Truthy(body.status) ==> t.status == Completed) &&
            (Truthy(body.status) ==> StatusName(t.status) == body.status.value)
  {
  }
}
