# Invoice dashboard: command pipeline, route guard and credential check

A Dafny model of the hand-written logic of a Next.js invoice dashboard:

- **Invoice server actions** (`app/lib/actions.ts`). The form schema checks three fields:
  - `customerId` must be a string.
  - `amount` is coerced with `Number(...)` and must be greater than 0.
  - `status` must be `pending` or `paid`.

  `createInvoice`, `updateInvoice` and `deleteInvoice` then INSERT, UPDATE or DELETE rows of the `invoices` table. Each one ends by returning a `State` record or by revalidating `/dashboard/invoices` and redirecting there.
- **Route guard** (`auth.config.ts`). The `authorized` callback decides, from the session and the request path, to allow the request, refuse it (NextAuth then sends the visitor to `/login`), or redirect to `/dashboard`.
- **Credential sign-in** (`auth.ts`). `getUser` looks a user up by email. `authorize` checks the shape of the credentials, looks the user up and compares the password with the stored hash.

Files:

- `wrappers.dfy`: module `Wrappers` with `Option` and `Result`.
- `js_strings.dfy`: module `JsStrings`, the JavaScript string operations the code uses: `startsWith`, `split('T')[0]`, and the trimming that `Number` does.
- `number_coercion.dfy`: module `NumberCoercion`, `Number(text)` for decimal numerals, holding values exactly.
- `invoice_actions.dfy`: module `InvoiceActions`. It holds the validator and the pure handler specifications `CreateStep`, `UpdateStep` and `DeleteStep`. The class `InvoiceTable` keeps the table as a `map<Id, Invoice>` field. Its methods change that map in place and are proved equal to the specifications.
- `auth_config.dfy`: module `AuthConfig`, the `authorized` decision.
- `auth.dfy`: module `Auth`, `getUser` and `authorize`.

Effects are values or parameters:

- The handlers return an `Outcome`: the path they revalidated (if any), and either the returned `State` or the redirect target.
- Whether a database statement fails is a `dbFails` parameter.
- The clock reading `new Date().toISOString()` is the `now` parameter.
- The zod email format check and `bcrypt.compare` are function parameters.
- The users table is a sequence of rows. The store may instead be `Unreachable`, in which case the query throws.

The model follows what the code does, also where it departs from what the application evidently intends:

- An empty `customerId` is accepted. `z.string()` checks only the type, not non-emptiness.
- A signed-in visitor of any page outside `/dashboard` is redirected to `/dashboard`, not only a visitor of the sign-in page.
- The stored amount is `amount * 100` with no rounding.
- `updateInvoice` reports validation failures with create's message, "Missing Fields. Failed to Create Invoice.".

## Model

| member | source | states |
|---|---|---|
| `JsStrings.StartsWithIsPrefix` | auth.config.ts:10 | `startsWith('/dashboard')` holds exactly when "/dashboard" is a sequence prefix of the path |
| `JsStrings.BeforeFirst` | app/lib/actions.ts:57 | `split('T')[0]` is a prefix of the text, holds no separator, and is followed by the separator when shorter |
| `JsStrings.TrimmedEmptyIffAllWhite` | app/lib/actions.ts:23-24 | trimming before coercion leaves nothing exactly for all-white text, and otherwise leaves no white space at either end |
| `JsStrings.TrimIsInnerSlice` | app/lib/actions.ts:23-24 | trimming keeps exactly the stretch of the text between a white-space prefix and a white-space suffix |
| `NumberCoercion.StringToNumber` | app/lib/actions.ts:23-24 | `Number(text)` of an empty or all-white text is 0 |
| `NumberCoercion.CentsTextRoundTrip` | app/lib/actions.ts:23-24 | for every whole number of cents, `Number` applied to its "D.DD" rendering gives exactly that many hundredths |
| `NumberCoercion.ExampleNumerals` | app/lib/actions.ts:23-24 | "45.00" coerces to 45, "" to 0, " 10 " to 10 and "abc" to NaN |
| `NumberCoercion.CentsAreWhole` | app/lib/actions.ts:56 | in exact arithmetic, an amount written with at most two decimals becomes a whole number of cents under `amount * 100` |
| `NumberCoercion.MinusNeverPositive` | app/lib/actions.ts:23-25 | an amount written with a minus sign never coerces to a number above 0, so it never passes |
| `InvoiceActions.CoerceAmount` | app/lib/actions.ts:23-24 | only a submitted text that is not blank and does not start with a minus sign can coerce to a number above 0: null coerces to 0, a file to NaN, blank text to 0 and a minus-signed numeral to at most 0 |
| `InvoiceActions.Validate` | app/lib/actions.ts:18-32 | success exactly when customerId is text, the coerced amount is a number above 0 and status is "pending" or "paid"; the parsed data are exactly those values |
| `InvoiceActions.FieldErrorsReported` | app/lib/actions.ts:18-28 | on failure each field is judged on its own: a missing customer gets "Please select a customer.", an amount of 0 or less "Please enter an amount greater than $0.", a NaN amount zod's NaN message, a missing status "Please select an invoice status.", another status text zod's enum message, and a passing field no entry |
| `InvoiceActions.DateOf` | app/lib/actions.ts:57 | the stored date is the part of the ISO clock reading before its first 'T' |
| `InvoiceActions.CreateStep` | app/lib/actions.ts:35-78 | an invalid form returns the field errors and "Missing Fields. Failed to Create Invoice.", table unchanged; a failed INSERT returns only "Database Error: Failed to Create Invoice." with no revalidation or redirect; otherwise exactly one new row holds the customer id, amount times 100, the status and today's date, all other rows are unchanged, and the handler revalidates and redirects to /dashboard/invoices |
| `InvoiceActions.UpdateStep` | app/lib/actions.ts:82-116 | an invalid form returns create's message with the errors, table unchanged; a failed UPDATE returns only "Database Error: Failed to Update Invoice."; otherwise only customer id, amount times 100 and status of row `id` change, no date ever changes, an unknown id changes nothing, and the handler revalidates and redirects |
| `InvoiceActions.DeleteStep` | app/lib/actions.ts:118-132 | a failed DELETE returns only "Database Error: Failed to Delete Invoice." with the table unchanged; otherwise row `id` is gone (if it was there), every other row is kept, the list is revalidated and "Invoice deleted successfully" is returned without a redirect |
| `InvoiceActions.HandlersKeepAmountsPositive` | app/lib/actions.ts:23-25 | create, update and delete keep every stored amount positive |
| `InvoiceActions.DeleteUndoesCreate` | app/lib/actions.ts:59-64 | deleting the row that create inserted restores the table |
| `InvoiceActions.UpdateIsIdempotent` | app/lib/actions.ts:104-109 | repeating a successful update changes nothing more |
| `InvoiceActions.DeleteIsIdempotent` | app/lib/actions.ts:120-126 | deleting an id twice leaves the same table and answer as deleting it once |
| `InvoiceActions.RejectedAlike` | app/lib/actions.ts:94-98 | for a form that fails validation, create and update give the same outcome, with create's message, and neither changes the table |
| `InvoiceActions.BlankAmountRejected` | app/lib/actions.ts:43 | an absent or blank amount coerces to 0 and is refused with "Please enter an amount greater than $0." |
| `InvoiceActions.EmptyCustomerIdAccepted` | app/lib/actions.ts:20-22 | an empty customer id passes validation |
| `InvoiceActions.TypedCentsStored` | app/lib/actions.ts:55-56 | an amount typed as "D.DD" for any positive number of cents passes validation and the created row holds exactly that many cents |
| `InvoiceActions.CreateExample` | app/lib/actions.ts:55-64 | creating from customer "c1", amount "45.00", status "pending" stores 4500 cents, status pending and today's date, then redirects |
| `InvoiceActions.InvoiceTable.CreateInvoice` | app/lib/actions.ts:35-78 | the table and outcome after the in-place INSERT are those `CreateStep` gives for a fresh id; ids stay below `nextId` and amounts stay positive |
| `InvoiceActions.InvoiceTable.UpdateInvoice` | app/lib/actions.ts:82-116 | the table and outcome after the in-place UPDATE are those `UpdateStep` gives |
| `InvoiceActions.InvoiceTable.DeleteInvoice` | app/lib/actions.ts:118-132 | the table and outcome after the in-place DELETE are those `DeleteStep` gives |
| `AuthConfig.Authorized` | auth.config.ts:8-18 | allowed exactly when being signed in and being on a dashboard path agree; refused exactly for a signed-out visitor of a dashboard path; otherwise redirected to /dashboard |
| `AuthConfig.NoRedirectLoop` | auth.config.ts:4-17 | after following one refusal (to /login) or redirect (to /dashboard), the same session is allowed |
| `AuthConfig.ExamplePaths` | auth.config.ts:9-17 | "/dashboardX" counts as a dashboard path; signed-in visitors of "/" and "/login" are redirected to /dashboard; a session without a user may see /login |
| `Auth.SelectByEmail` | auth.ts:14 | the query returns exactly the users with that email |
| `Auth.FirstMatch` | auth.ts:14-15 | the position of the first user with that email: no earlier user has it |
| `Auth.FirstRowIsFirstMatch` | auth.ts:14-15 | the query returns rows exactly when some user has the email, and its first row is the first such user in table order |
| `Auth.GetUser` | auth.ts:12-20 | a failing query throws "Failed to fetch user."; otherwise the answer is a user with that email from the table, and it is missing exactly when no user has that email |
| `Auth.Authorize` | auth.ts:25-42 | malformed credentials give null; a failing lookup throws; an unknown email gives null; any user returned was found under the submitted email and its stored hash matches the password |
| `Auth.MalformedNeedsNoStore` | auth.ts:26-41 | malformed credentials give null whatever the store holds, even an unreachable store, so no lookup takes place |
| `Auth.FoundUserDecidedByPassword` | auth.ts:33-37 | for a found user, the answer is that user when the password matches its hash and null otherwise |

## Left out

- The SQL engine and `@vercel/postgres`. Tables are a map and a sequence. A failing statement is a `dbFails` parameter, or the `Unreachable` store for the user lookup.
- Invoice ids are natural numbers handed out in order, not database-generated UUIDs. An id that is not a valid UUID makes the real UPDATE or DELETE fail; the model covers that only through `dbFails`.
- Row order for `SELECT ... WHERE email=...` is the database's own. The model uses table order.
- zod internals. The `.email()` format is the parameter `isEmail`. For a NaN amount and a status text outside the enum, the model uses zod's default messages ("Expected number, received nan" and "Invalid enum value. Expected 'pending' | 'paid', received '…'"). These texts come from the library, not from the repository.
- The schema's `id` and `date` fields: both handlers omit them, so they are never checked.
- NumberCoercion.StringToNumber: only decimal numerals with an optional sign and point are read. Exponents ("1e2"), hexadecimal, binary and octal literals and "Infinity" give NaN in the model, but numbers in JavaScript. Unicode space separators other than no-break space are not trimmed. Over all inputs, the value read is tied to the text only for amounts written as "D.DD" (`CentsTextRoundTrip`); other numerals are checked on examples.
- Floating point. Amounts are exact reals, so `Number(text)` and `amount * 100` are exact. In IEEE doubles, 19.99 * 100 is 1998.9999999999998, and the code does not round it.
- NumberCoercion.CentsAreWhole: holds only in exact arithmetic. The program multiplies doubles, so an input such as "19.99" does not give a whole number of cents.
- NumberCoercion.CentsTextRoundTrip and InvoiceActions.TypedCentsStored: exact only in the model. In JavaScript, `Number("19.99")` is the nearest double, and the stored amount is 1998.9999999999998.
- Exactness also changes validation at the extremes. A text such as "0." followed by 400 zeros and a "1" underflows to 0 in JavaScript, so it is refused with "Please enter an amount greater than $0.". The model accepts it as a tiny positive amount.
- Password length is counted in characters. zod counts UTF-16 code units, which differ for characters outside the Basic Multilingual Plane.
- bcrypt hashing and comparison. These are the parameter `passwordsMatch`.
- NextAuth's session machinery. The refusal's redirect to `pages.signIn` is modelled only as `Destination`, without the `callbackUrl` query it adds. A redirect location is a path, without the origin `new URL` adds.
- `revalidatePath` and `redirect` are outcome values. A `revalidatePath` that throws inside delete's `try` (which would turn into the database message) is not modelled.
- `prevState` is not read by the handlers, so it is not a parameter.
- `console.log` and `console.error` logging.
- `middleware.ts`: it only passes the configuration to NextAuth with a path matcher that Next.js interprets.
- async/await and concurrent requests: each call is modelled as one atomic step.
