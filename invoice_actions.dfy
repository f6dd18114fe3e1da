/** The invoice command pipeline of app/lib/actions.ts: the form schema shared by
    creating and updating an invoice, and the three server actions that insert,
    update and delete rows of the `invoices` table.

    The table is a map from invoice id to row, held by the class InvoiceTable.
    What the handlers do besides changing the table is an Outcome value: the
    path whose cached rendering they revalidate, if any, and whether they return
    a State record to the form or redirect the browser. Whether the database
    statement fails is a parameter of each call, and so is the clock reading
    (`new Date().toISOString()`). */
module InvoiceActions {
  import opened Wrappers
  import opened JsStrings
  import opened NumberCoercion

  // ---------------------------------------------------------------- the form

  /** What `formData.get(name)` yields: null when the form did not submit the
      field, otherwise its text or an uploaded file. */
  datatype FormValue = Missing | Text(text: string) | Upload

  /** The three fields read from the submitted form. */
  datatype InvoiceForm = InvoiceForm(customerId: FormValue, amount: FormValue, status: FormValue)

  datatype Status = Pending | Paid

  /** The two values the status enum admits, as they are spelled in the form. */
  function StatusName(s: Status): string {
    match s
    case Pending => "pending"
    case Paid => "paid"
  }

  /** What a successful `safeParse` returns: the customer id as submitted, the
      coerced amount and the status. */
  datatype InvoiceFields = InvoiceFields(customerId: string, amount: real, status: Status)

  /** `error.flatten().fieldErrors`: the messages for each field; an empty list
      stands for a field that has no entry. */
  datatype FieldErrors = FieldErrors(customerId: seq<string>, amount: seq<string>, status: seq<string>)

  const CustomerMessage := "Please select a customer."
  const AmountMessage := "Please enter an amount greater than $0."
  const StatusMessage := "Please select an invoice status."
  /** zod's own message when the coerced amount is NaN. */
  const NotANumberMessage := "Expected number, received nan"

  /** zod's own message for a status text outside the enum. */
  function EnumMessage(received: string): string {
    "Invalid enum value. Expected 'pending' | 'paid', received '" + received + "'"
  }

  /** `z.coerce.number()` applies `Number(value)`: `Number(null)` is 0 and a
      file reads as NaN. So only a submitted text that is not blank and does
      not start with a minus sign can coerce to a number above 0. */
  function CoerceAmount(v: FormValue): (c: Coerced)
    ensures c.Num? && c.value > 0.0 ==>
      v.Text? && Trim(v.text) != [] && Trim(v.text)[0] != '-'
  {
    match v
    case Missing => Num(0.0)
    case Upload => NaN
    case Text(t) =>
      TrimmedEmptyIffAllWhite(t);
      if Trim(t) != [] && Trim(t)[0] == '-' then
        MinusNeverPositive(t);
        StringToNumber(t)
      else StringToNumber(t)
  }

  /** `customerId: z.string(...)`: any text, the empty one included. */
  function CheckCustomerId(v: FormValue): Result<string, seq<string>> {
    match v
    case Text(t) => Success(t)
    case _ => Failure([CustomerMessage])
  }

  /** `amount: z.coerce.number().gt(0, ...)`. */
  function CheckAmount(v: FormValue): Result<real, seq<string>> {
    match CoerceAmount(v)
    case NaN => Failure([NotANumberMessage])
    case Num(x) => if x > 0.0 then Success(x) else Failure([AmountMessage])
  }

  /** `status: z.enum(['pending', 'paid'], ...)`: a non-text value gets the
      custom message, a text outside the enum zod's own. */
  function CheckStatus(v: FormValue): Result<Status, seq<string>> {
    match v
    case Text(t) =>
      if t == StatusName(Pending) then Success(Pending)
      else if t == StatusName(Paid) then Success(Paid)
      else Failure([EnumMessage(t)])
    case _ => Failure([StatusMessage])
  }

  function ErrorsOf<T>(r: Result<T, seq<string>>): seq<string> {
    match r
    case Success(_) => []
    case Failure(e) => e
  }

  /** `CreateInvoice.safeParse` (and the identical `UpdateInvoice`): every field
      is checked on its own and all failures are reported together. */
  function Validate(form: InvoiceForm): (r: Result<InvoiceFields, FieldErrors>)
    ensures r.Success? <==>
      && form.customerId.Text?
      && CoerceAmount(form.amount).Num? && CoerceAmount(form.amount).value > 0.0
      && (form.status == Text("pending") || form.status == Text("paid"))
    ensures r.Success? ==>
      && form.customerId == Text(r.value.customerId)
      && CoerceAmount(form.amount) == Num(r.value.amount)
      && form.status == Text(StatusName(r.value.status))
  {
    var c, a, s := CheckCustomerId(form.customerId), CheckAmount(form.amount), CheckStatus(form.status);
    if c.Success? && a.Success? && s.Success? then
      Success(InvoiceFields(c.value, a.value, s.value))
    else
      Failure(FieldErrors(ErrorsOf(c), ErrorsOf(a), ErrorsOf(s)))
  }

  /** A failed validation reports every failing field with its own message
      and leaves the passing fields without an entry. */
  lemma FieldErrorsReported(form: InvoiceForm)
    ensures var r := Validate(form);
      r.Failure? ==>
      && (form.customerId.Text? <==> r.error.customerId == [])
      && (!form.customerId.Text? ==> r.error.customerId == [CustomerMessage])
      && (CoerceAmount(form.amount).Num? && CoerceAmount(form.amount).value <= 0.0 ==>
            r.error.amount == [AmountMessage])
      && (CoerceAmount(form.amount).NaN? ==> r.error.amount == [NotANumberMessage])
      && (CoerceAmount(form.amount).Num? && CoerceAmount(form.amount).value > 0.0 <==>
            r.error.amount == [])
      && ((form.status == Text("pending") || form.status == Text("paid")) <==> r.error.status == [])
      && (!form.status.Text? ==> r.error.status == [StatusMessage])
      && (form.status.Text? && form.status.text != "pending" && form.status.text != "paid" ==>
            r.error.status == [EnumMessage(form.status.text)])
  {
  }

  // ------------------------------------------------------- handler outcomes

  /** The `State` record a handler returns to the form. */
  datatype State = State(errors: Option<FieldErrors>, message: Option<string>)

  /** How a handler ends: it returns a State, or `redirect` sends the browser on. */
  datatype Response = Return(state: State) | Redirect(location: string)

  /** The path a handler revalidated with `revalidatePath`, if it did, and how
      it ended. */
  datatype Outcome = Outcome(revalidated: Option<string>, response: Response)

  const InvoicesPath := "/dashboard/invoices"
  const MissingFieldsMessage := "Missing Fields. Failed to Create Invoice."
  const CreateFailedMessage := "Database Error: Failed to Create Invoice."
  const UpdateFailedMessage := "Database Error: Failed to Update Invoice."
  const DeleteFailedMessage := "Database Error: Failed to Delete Invoice."
  const DeletedMessage := "Invoice deleted successfully"

  /** Returned when validation fails: the field errors and one message. */
  function Rejected(errors: FieldErrors): Outcome {
    Outcome(None, Return(State(Some(errors), Some(MissingFieldsMessage))))
  }

  /** Returned from a `catch` around a statement: one message and nothing else. */
  function DatabaseError(message: string): Outcome {
    Outcome(None, Return(State(None, Some(message))))
  }

  /** `revalidatePath('/dashboard/invoices'); redirect('/dashboard/invoices')`. */
  function RevalidateAndRedirect(): Outcome {
    Outcome(Some(InvoicesPath), Redirect(InvoicesPath))
  }

  /** Delete's success: revalidate the list, then return a message. */
  function RevalidateAndConfirm(): Outcome {
    Outcome(Some(InvoicesPath), Return(State(None, Some(DeletedMessage))))
  }

  /** Neither revalidates nor redirects: the handler returned a State that
      holds `message` and no field errors. */
  predicate ReturnsOnly(o: Outcome, message: string) {
    && o.revalidated == None
    && o.response.Return?
    && o.response.state.errors == None
    && o.response.state.message == Some(message)
  }

  // ------------------------------------------------------------------ table

  /** Invoice ids; the database generates them, the model numbers them. */
  type Id = nat

  /** A row of `invoices`; `amount` is in cents. */
  datatype Invoice = Invoice(customerId: string, amount: real, status: Status, date: string)

  type Table = map<Id, Invoice>

  /** The table after a handler ran, and what the handler did besides. */
  datatype Step = Step(table: Table, outcome: Outcome)

  /** `new Date().toISOString().split('T')[0]`: the date part of the clock
      reading, "YYYY-MM-DD". */
  function DateOf(now: string): (date: string)
    ensures date <= now && 'T' !in date
  {
    BeforeFirst(now, 'T')
  }

  /** The row `createInvoice` inserts for validated fields. */
  function NewRow(f: InvoiceFields, now: string): Invoice {
    Invoice(f.customerId, f.amount * 100.0, f.status, DateOf(now))
  }

  /** `createInvoice`: validate, then INSERT one row under the fresh id `id`. */
  function CreateStep(table: Table, id: Id, form: InvoiceForm, now: string, dbFails: bool): (s: Step)
    requires id !in table
    ensures match Validate(form)
      case Failure(errors) => s.table == table && s.outcome == Rejected(errors)
      case Success(f) =>
        if dbFails then s.table == table && ReturnsOnly(s.outcome, CreateFailedMessage)
        else
          && s.table.Keys == table.Keys + {id}
          && (forall k :: k in table ==> s.table[k] == table[k])
          && s.table[id].customerId == f.customerId
          && s.table[id].amount == f.amount * 100.0
          && s.table[id].status == f.status
          && s.table[id].date == DateOf(now)
          && s.outcome == RevalidateAndRedirect()
  {
    match Validate(form)
    case Failure(errors) => Step(table, Rejected(errors))
    case Success(f) =>
      if dbFails then Step(table, DatabaseError(CreateFailedMessage))
      else Step(table[id := NewRow(f, now)], RevalidateAndRedirect())
  }

  /** The row after `UPDATE invoices SET customer_id, amount, status`. */
  function UpdatedRow(row: Invoice, f: InvoiceFields): Invoice {
    row.(customerId := f.customerId, amount := f.amount * 100.0, status := f.status)
  }

  /** `updateInvoice`: validate, then UPDATE three columns of row `id`, if any. */
  function UpdateStep(table: Table, id: Id, form: InvoiceForm, dbFails: bool): (s: Step)
    ensures match Validate(form)
      case Failure(errors) => s.table == table && s.outcome == Rejected(errors)
      case Success(f) =>
        if dbFails then s.table == table && ReturnsOnly(s.outcome, UpdateFailedMessage)
        else
          && s.table.Keys == table.Keys
          && (forall k :: k in table && k != id ==> s.table[k] == table[k])
          && (id in table ==>
                && s.table[id].customerId == f.customerId
                && s.table[id].amount == f.amount * 100.0
                && s.table[id].status == f.status)
          && s.outcome == RevalidateAndRedirect()
    ensures forall k :: k in table ==> k in s.table && s.table[k].date == table[k].date
  {
    match Validate(form)
    case Failure(errors) => Step(table, Rejected(errors))
    case Success(f) =>
      if dbFails then Step(table, DatabaseError(UpdateFailedMessage))
      else if id in table then Step(table[id := UpdatedRow(table[id], f)], RevalidateAndRedirect())
      else Step(table, RevalidateAndRedirect())
  }

  /** `deleteInvoice`: DELETE row `id`, if any; no validation. */
  function DeleteStep(table: Table, id: Id, dbFails: bool): (s: Step)
    ensures dbFails ==> s.table == table && ReturnsOnly(s.outcome, DeleteFailedMessage)
    ensures !dbFails ==>
      && s.table.Keys == table.Keys - {id}
      && (forall k :: k in s.table ==> s.table[k] == table[k])
      && s.outcome.revalidated == Some(InvoicesPath)
      && s.outcome.response == Return(State(None, Some(DeletedMessage)))
  {
    if dbFails then Step(table, DatabaseError(DeleteFailedMessage))
    else Step(table - {id}, RevalidateAndConfirm())
  }

  // ------------------------------------------------------------- properties

  /** Every stored amount is positive: the only rows are those validation let
      through. */
  predicate PositiveAmounts(table: Table) {
    forall k :: k in table ==> table[k].amount > 0.0
  }

  /** The three handlers keep every stored amount positive. */
  lemma HandlersKeepAmountsPositive(table: Table, id: Id, form: InvoiceForm, now: string, dbFails: bool)
    requires PositiveAmounts(table)
    ensures id !in table ==> PositiveAmounts(CreateStep(table, id, form, now, dbFails).table)
    ensures PositiveAmounts(UpdateStep(table, id, form, dbFails).table)
    ensures PositiveAmounts(DeleteStep(table, id, dbFails).table)
  {
    if Validate(form).Success? {
      var f := Validate(form).value;
      assert f.amount * 100.0 > 0.0;
    }
  }

  /** Deleting the invoice just created gives back the table as it was. */
  lemma DeleteUndoesCreate(table: Table, id: Id, form: InvoiceForm, now: string)
    requires id !in table && Validate(form).Success?
    ensures DeleteStep(CreateStep(table, id, form, now, false).table, id, false).table == table
  {
  }

  /** Submitting the same update twice leaves what submitting it once left. */
  lemma UpdateIsIdempotent(table: Table, id: Id, form: InvoiceForm)
    ensures var once := UpdateStep(table, id, form, false);
            UpdateStep(once.table, id, form, false) == once
  {
  }

  /** Deleting twice leaves what deleting once left, and answers alike. */
  lemma DeleteIsIdempotent(table: Table, id: Id)
    ensures var once := DeleteStep(table, id, false);
            DeleteStep(once.table, id, false) == once
  {
  }

  /** On a form that fails validation, create and update answer identically
      (update reuses create's message) and neither touches the table. */
  lemma RejectedAlike(table: Table, newId: Id, id: Id, form: InvoiceForm, now: string, createFails: bool, updateFails: bool)
    requires newId !in table && Validate(form).Failure?
    ensures CreateStep(table, newId, form, now, createFails) == UpdateStep(table, id, form, updateFails)
    ensures CreateStep(table, newId, form, now, createFails).outcome.response.state.message == Some(MissingFieldsMessage)
  {
  }

  /** An empty or absent amount is coerced to 0 and refused. */
  lemma BlankAmountRejected(form: InvoiceForm)
    requires form.amount == Missing || (form.amount.Text? && AllWhite(form.amount.text))
    ensures Validate(form).Failure? && Validate(form).error.amount == [AmountMessage]
  {
  }

  /** An empty customer id is a string, so it passes: only a missing or
      non-text field is refused. */
  lemma EmptyCustomerIdAccepted()
    ensures Validate(InvoiceForm(Text(""), Text("10"), Text("paid"))).Success?
  {
    Ten();
  }

  /** Creating from {customerId "c1", amount "45.00", status "pending"} stores
      4500 cents and today's date. */
  lemma CreateExample(table: Table, id: Id, now: string)
    requires id !in table
    ensures var s := CreateStep(table, id, InvoiceForm(Text("c1"), Text("45.00"), Text("pending")), now, false);
            id in s.table && s.table[id] == Invoice("c1", 4500.0, Pending, DateOf(now))
            && s.outcome == RevalidateAndRedirect()
  {
    FortyFive();
  }

  /** An amount typed as dollars and cents ("D.DD") for a positive number of
      cents passes validation and is stored as exactly that many cents. */
  lemma TypedCentsStored(table: Table, id: Id, customerId: string, status: Status, cents: nat, now: string)
    requires id !in table && cents > 0
    ensures var form := InvoiceForm(Text(customerId), Text(CentsText(cents)), Text(StatusName(status)));
            var s := CreateStep(table, id, form, now, false);
            id in s.table && s.table[id].amount == cents as real
  {
    CentsTextRoundTrip(cents);
  }

  // ------------------------------------------------------------ the handlers

  /** The `invoices` table as the three server actions change it in place. */
  class InvoiceTable {
    var rows: Table
    /** The id the next INSERT receives. */
    var nextId: Id

    /** Every id in use is below `nextId`, and every stored amount is positive. */
    ghost predicate Valid()
      reads this
    {
      (forall k :: k in rows ==> k < nextId) && PositiveAmounts(rows)
    }

    constructor ()
      ensures Valid() && rows == map[]
    {
      rows := map[];
      nextId := 0;
    }

    /** `createInvoice(prevState, formData)`; `prevState` is not read. */
    method CreateInvoice(form: InvoiceForm, now: string, dbFails: bool) returns (outcome: Outcome)
      requires Valid()
      modifies this
      ensures Valid()
      ensures old(nextId) !in old(rows)
      ensures Step(rows, outcome) == CreateStep(old(rows), old(nextId), form, now, dbFails)
    {
      var validated := Validate(form);
      if validated.Failure? {
        return Rejected(validated.error);
      }
      var fields := validated.value;
      if dbFails {
        return DatabaseError(CreateFailedMessage);
      }
      var row := NewRow(fields, now);
      assert row.amount > 0.0;
      rows := rows[nextId := row];
      nextId := nextId + 1;
      outcome := RevalidateAndRedirect();
    }

    /** `updateInvoice(id, prevState, formData)`. */
    method UpdateInvoice(id: Id, form: InvoiceForm, dbFails: bool) returns (outcome: Outcome)
      requires Valid()
      modifies this
      ensures Valid() && nextId == old(nextId)
      ensures Step(rows, outcome) == UpdateStep(old(rows), id, form, dbFails)
    {
      var validated := Validate(form);
      if validated.Failure? {
        return Rejected(validated.error);
      }
      var fields := validated.value;
      if dbFails {
        return DatabaseError(UpdateFailedMessage);
      }
      if id in rows {
        var row := UpdatedRow(rows[id], fields);
        assert row.amount > 0.0;
        rows := rows[id := row];
      }
      outcome := RevalidateAndRedirect();
    }

    /** `deleteInvoice(id)`. */
    method DeleteInvoice(id: Id, dbFails: bool) returns (outcome: Outcome)
      requires Valid()
      modifies this
      ensures Valid() && nextId == old(nextId)
      ensures Step(rows, outcome) == DeleteStep(old(rows), id, dbFails)
    {
      if dbFails {
        return DatabaseError(DeleteFailedMessage);
      }
      rows := rows - {id};
      outcome := RevalidateAndConfirm();
    }
  }
}
