/** The transaction schema as a validator and defaulting function: which fields are
    required, what is filled in, and which statuses are allowed. */
module TransactionModel {
  import opened JsValues

  /** A document id as handed out by the database. */
  type ObjectId = nat

  datatype Status = Pending | Completed | Failed

  /** The strings the `status` enum accepts. */
  function StatusName(s: Status): string {
    match s
    case Pending => "pending"
    case Completed => "completed"
    case Failed => "failed"
  }

  /** The enum validator: a status string is accepted exactly when it names a status. */
  function ParseStatus(s: string): (r: Option<Status>)
    ensures r.Some? ==> StatusName(r.value) == s
    ensures r.None? ==> forall st: Status :: StatusName(st) != s
  {
    if s == "pending" then Some(Pending)
    else if s == "completed" then Some(Completed)
    else if s == "failed" then Some(Failed)
    else None
  }

  lemma ParseStatusName(st: Status)
    ensures ParseStatus(StatusName(st)) == Some(st)
  {
  }

  const DefaultCurrency: string := "USD"
  const DefaultStatus: Status := Completed

  /** A saved transaction. `date`, `createdAt` and `updatedAt` are the clock's reading at
      creation. */
  datatype Transaction = Transaction(id: ObjectId, userId: ObjectId, amount: int, currency: string,
                                     description: string, status: Status,
                                     date: int, createdAt: int, updatedAt: int)

  /** The fields given to `new Transaction(...)`; an absent one is `undefined`. */
  datatype Draft = Draft(userId: Option<ObjectId>, amount: Option<int>, description: Option<string>,
                         status: Option<string>)

  /** The paths that fail validation, in schema order: a missing `userId` or `amount`,
      a missing or empty `description`, a status outside the enum. */
  function ValidationErrors(d: Draft): (r: seq<string>)
    ensures "userId" in r <==> d.userId.None?
    ensures "amount" in r <==> d.amount.None?
    ensures "description" in r <==> !Truthy(d.description)
    ensures "status" in r <==> d.status.Some? && ParseStatus(d.status.value).None?
    ensures forall p :: p in r ==> p in ["userId", "amount", "description", "status"]
  {
    (if d.userId.None? then ["userId"] else []) +
    (if d.amount.None? then ["amount"] else []) +
    (if !Truthy(d.description) then ["description"] else []) +
    (if d.status.Some? && ParseStatus(d.status.value).None? then ["status"] else [])
  }

  datatype Result<T> = Valid(value: T) | Invalid(paths: seq<string>)

  /** Building and validating a document with the given id at time `now`: a draft with
      no failing path becomes a transaction with the defaults filled in. */
  function Build(id: ObjectId, d: Draft, now: int): (r: Result<Transaction>)
    ensures r.Invalid? <==> ValidationErrors(d) != []
    ensures r.Invalid? ==> r.paths == ValidationErrors(d)
    ensures r.Valid? ==>
              var t := r.value;
              Some(t.userId) == d.userId && Some(t.amount) == d.amount && Some(t.description) == d.description &&
              t.description != "" && t.id == id && t.currency == DefaultCurrency &&
              t.date == now && t.createdAt == now && t.updatedAt == now &&
              (d.status.None? ==> t.status == DefaultStatus) &&
              (d.status.Some? ==> StatusName(t.status) == d.status.value)
  {
    var errors := ValidationErrors(d);
    if errors != [] then Invalid(errors)
    else
      var status := if d.status.Some? then ParseStatus(d.status.value).value else DefaultStatus;
      Valid(Transaction(id, d.userId.value, d.amount.value, DefaultCurrency, d.description.value, status, now, now, now))
  }

  /** Every status the schema can store passes validation, and nothing outside the enum
      does. */
  lemma StatusAcceptedIffEnum(uid: ObjectId, amount: int, description: string, status: string, now: int)
    requires description != ""
    ensures Build(0, Draft(Some(uid), Some(amount), Some(description), Some(status)), now).Valid? <==>
              status in ["pending", "completed", "failed"]
  {
  }
}
