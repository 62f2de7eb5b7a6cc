/** Invoices and payments: an invoice is created Pending for an existing
    user and becomes Paid once, by a payment of exactly its amount. */
module PaymentApi {
  import opened Json
  import opened Http
  import opened Tables
  import opened Database

  datatype InvoiceInput = InvoiceInput(userId: int, amount: real, description: string)

  /** `payment_method` is loaded and never looked at. */
  datatype PaymentInput = PaymentInput(invoiceId: int, amount: real, paymentMethod: string)

  const Pending := "Pending"
  const Paid := "Paid"

  method CreateInvoice(db: Db, body: Parsed<InvoiceInput>, now: int) returns (resp: Response)
    requires db.invoices.Valid()
    modifies db`invoices
    ensures db.invoices.Valid()
    ensures body.Invalid? ==> resp == InvalidInput(body.details)
    ensures body.Loaded? && body.data.userId !in db.users.rows ==> resp == Fail(404, "User not found")
    ensures resp.status == 201 <==> body.Loaded? && body.data.userId in db.users.rows
    ensures resp.status != 201 ==> db.invoices == old(db.invoices)
    ensures resp.status == 201 ==>
      var id := old(db.invoices.nextId);
      && id !in old(db.invoices.rows)
      && db.invoices == old(db.invoices).Insert(
           Invoice(body.data.userId, body.data.amount, body.data.description, Pending, now))
      && resp == Response(201, Obj(map["message" := Str("Invoice created successfully"), "invoice_id" := Int(id)]))
  {
    if body.Invalid? {
      return InvalidInput(body.details);
    }
    var data := body.data;
    if data.userId !in db.users.rows {
      return Fail(404, "User not found");
    }
    var id := db.invoices.nextId;
    db.invoices := db.invoices.Insert(Invoice(data.userId, data.amount, data.description, Pending, now));
    resp := Response(201, Obj(map["message" := Str("Invoice created successfully"), "invoice_id" := Int(id)]));
  }

  function InvoiceJson(id: int, inv: Invoice): Value {
    Obj(map[
      "id" := Int(id),
      "user_id" := Int(inv.userId),
      "amount" := Float(inv.amount),
      "description" := Str(inv.description),
      "status" := Str(inv.status),
      "created_at" := IsoFormat(inv.createdAt)])
  }

  function GetInvoice(db: Db, invoiceId: int): (r: Response)
    reads db
    ensures invoiceId !in db.invoices.rows <==> r == Fail(404, "Invoice not found")
    ensures invoiceId in db.invoices.rows ==>
      r == Response(200, InvoiceJson(invoiceId, db.invoices.rows[invoiceId]))
  {
    if invoiceId !in db.invoices.rows then Fail(404, "Invoice not found")
    else Response(200, InvoiceJson(invoiceId, db.invoices.rows[invoiceId]))
  }

  function ListInvoices(db: Db): (r: Response)
    reads db
    requires db.invoices.Valid()
    ensures r.status == 200 && r.body.Arr? && |r.body.items| == |db.invoices.rows|
    ensures forall id :: id in db.invoices.rows ==> InvoiceJson(id, db.invoices.rows[id]) in r.body.items
  {
    Response(200, Arr(Project(db.invoices.All(), InvoiceJson)))
  }

  /** The checks run in this order: existence, already paid, amount. */
  method ProcessPayment(db: Db, body: Parsed<PaymentInput>) returns (resp: Response)
    requires db.invoices.Valid()
    modifies db`invoices
    ensures db.invoices.Valid()
    ensures body.Invalid? ==> resp == InvalidInput(body.details)
    ensures body.Loaded? && body.data.invoiceId !in old(db.invoices.rows) ==>
      resp == Fail(404, "Invoice not found")
    ensures body.Loaded? && body.data.invoiceId in old(db.invoices.rows) ==>
      var inv := old(db.invoices.rows[body.data.invoiceId]);
      && (inv.status == Paid ==> resp == Fail(400, "Invoice has already been paid"))
      && (inv.status != Paid && body.data.amount != inv.amount ==>
            resp == Fail(400, "Payment amount does not match invoice amount"))
    ensures resp.status == 200 <==>
      && body.Loaded? && body.data.invoiceId in old(db.invoices.rows)
      && old(db.invoices.rows[body.data.invoiceId]).status != Paid
      && old(db.invoices.rows[body.data.invoiceId]).amount == body.data.amount
    ensures resp.status != 200 ==> db.invoices == old(db.invoices)
    ensures resp.status == 200 ==>
      && resp == Done(200, "Payment processed successfully")
      && db.invoices == old(db.invoices).Put(body.data.invoiceId,
           old(db.invoices.rows[body.data.invoiceId]).(status := Paid))
      && db.invoices.rows[body.data.invoiceId].status == Paid
  {
    if body.Invalid? {
      return InvalidInput(body.details);
    }
    var data := body.data;
    if data.invoiceId !in db.invoices.rows {
      return Fail(404, "Invoice not found");
    }
    var invoice := db.invoices.rows[data.invoiceId];
    if invoice.status == Paid {
      return Fail(400, "Invoice has already been paid");
    }
    if data.amount != invoice.amount {
      return Fail(400, "Payment amount does not match invoice amount");
    }
    db.invoices := db.invoices.Put(data.invoiceId, invoice.(status := Paid));
    resp := Done(200, "Payment processed successfully");
  }

  /** Billing history lists newest first. */
  predicate NewestFirst(s: seq<(int, Invoice)>) {
    forall i, j :: 0 <= i < j < |s| ==> s[i].1.createdAt >= s[j].1.createdAt
  }

  predicate NotAfter(s: seq<(int, Invoice)>, d: int) {
    forall i :: 0 <= i < |s| ==> s[i].1.createdAt <= d
  }

  /** One step of the sort: `x` goes before the first invoice not newer than it. */
  function InsertByDate(x: (int, Invoice), s: seq<(int, Invoice)>): seq<(int, Invoice)> {
    if s == [] || s[0].1.createdAt <= x.1.createdAt then [x] + s
    else [s[0]] + InsertByDate(x, s[1..])
  }

  lemma {:induction false} InsertNotAfter(x: (int, Invoice), s: seq<(int, Invoice)>, d: int)
    requires x.1.createdAt <= d && NotAfter(s, d)
    ensures NotAfter(InsertByDate(x, s), d)
  {
    if !(s == [] || s[0].1.createdAt <= x.1.createdAt) {
      InsertNotAfter(x, s[1..], d);
    }
  }

  lemma {:induction false} InsertByDateSorted(x: (int, Invoice), s: seq<(int, Invoice)>)
    requires NewestFirst(s)
    ensures NewestFirst(InsertByDate(x, s))
  {
    if !(s == [] || s[0].1.createdAt <= x.1.createdAt) {
      InsertByDateSorted(x, s[1..]);
      InsertNotAfter(x, s[1..], s[0].1.createdAt);
    }
  }

  lemma {:induction false} InsertByDatePerm(x: (int, Invoice), s: seq<(int, Invoice)>)
    ensures multiset(InsertByDate(x, s)) == multiset(s) + multiset{x}
  {
    if !(s == [] || s[0].1.createdAt <= x.1.createdAt) {
      InsertByDatePerm(x, s[1..]);
      assert s == [s[0]] + s[1..];
    }
  }

  /** `order_by(Invoice.created_at.desc())`, as an insertion sort. */
  function SortNewestFirst(s: seq<(int, Invoice)>): (r: seq<(int, Invoice)>)
    ensures NewestFirst(r)
    ensures multiset(r) == multiset(s)
  {
    if s == [] then []
    else
      var sorted := SortNewestFirst(s[1..]);
      SortStep(s, sorted);
      InsertByDate(s[0], sorted)
  }

  /** Inserting the head into the sorted tail sorts the whole list. */
  lemma SortStep(s: seq<(int, Invoice)>, sorted: seq<(int, Invoice)>)
    requires s != [] && NewestFirst(sorted) && multiset(sorted) == multiset(s[1..])
    ensures NewestFirst(InsertByDate(s[0], sorted))
    ensures multiset(InsertByDate(s[0], sorted)) == multiset(s)
  {
    InsertByDateSorted(s[0], sorted);
    InsertByDatePerm(s[0], sorted);
    assert s == [s[0]] + s[1..];
  }

  predicate OfUser(uid: int, id: int, inv: Invoice) {
    inv.userId == uid
  }

  /** `Invoice.query.filter_by(user_id=uid).order_by(Invoice.created_at.desc()).all()` */
  function BillingHistory(db: Db, uid: int): (r: seq<(int, Invoice)>)
    reads db
    requires db.invoices.Valid()
    ensures NewestFirst(r)
    ensures multiset(r) == multiset(Where(db.invoices.All(), (id, inv) => OfUser(uid, id, inv)))
    ensures forall x :: x in r <==> x.0 in db.invoices.rows && db.invoices.rows[x.0] == x.1 && x.1.userId == uid
  {
    var mine := Where(db.invoices.All(), (id, inv) => OfUser(uid, id, inv));
    var r := SortNewestFirst(mine);
    assert forall x :: x in r <==> x in multiset(mine);
    r
  }

  function HistoryJson(id: int, inv: Invoice): Value {
    Obj(map[
      "id" := Int(id),
      "amount" := Float(inv.amount),
      "description" := Str(inv.description),
      "status" := Str(inv.status),
      "created_at" := IsoFormat(inv.createdAt)])
  }

  /** `userId` is `request.args.get('user_id', type=int)`: None when the
      parameter is absent or not an integer. */
  function GetBillingHistory(db: Db, userId: Option<int>): (r: Response)
    reads db
    requires db.invoices.Valid()
    ensures (userId.None? || userId.value == 0) ==> r == Fail(400, "User ID is required")
    ensures userId.Some? && userId.value != 0 && userId.value !in db.users.rows ==> r == Fail(404, "User not found")
    ensures r.status == 200 <==> userId.Some? && userId.value != 0 && userId.value in db.users.rows
    ensures r.status == 200 ==> r.body == Arr(Project(BillingHistory(db, userId.value), HistoryJson))
  {
    if userId.None? || userId.value == 0 then Fail(400, "User ID is required")
    else if userId.value !in db.users.rows then Fail(404, "User not found")
    else Response(200, Arr(Project(BillingHistory(db, userId.value), HistoryJson)))
  }
}
