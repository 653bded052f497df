# ViveoPay core, modelled in Dafny

ViveoPay is a payment platform for Brazilian service providers. It creates
charges at the Asaas payment gateway and keeps its own `transactions` table
in step with the gateway. This project models four pieces of it and proves
properties about them.

- **The Asaas webhook** (`Webhook.dfy`). This is the edge function the
  gateway calls on every payment event.
  - It rejects requests whose `asaas-access-token` header differs from the
    configured token.
  - It writes an audit row to `webhook_logs`.
  - It maps the gateway status onto the internal status.
  - It finds the transaction by external reference, or else by gateway
    payment id.
  - It updates the webhook-owned columns of that row and queues a payment
    notification when the payment is settled.
  - It marks the audit rows processed.

  `WebhookEndpoint` is a class. Its fields hold the two tables and the
  dispatched notifications. The clock, the fresh UUID and the outcome of
  each database call are parameters.

  The update object leaves `asaas_invoice_url`, `payment_method` and
  `paid_at` undefined when the payload has no value for them.
  `JSON.stringify` drops such keys, so the database keeps those columns as
  they were. The model carries each of them as an `Option`, and `None`
  leaves the column unchanged (`Webhook.ApplyUpdate`).
- **CPF/CNPJ** (`CpfCnpj.dfy`). These are the Brazilian taxpayer numbers.
  - The two validators keep the source's accumulation loops and are proved
    equal to a functional statement of the modulo-11 rule.
  - The formatter is proved to insert only separators and to give the
    usual layouts.
  - The form-field verdict is proved to pick the right message.
- **PIX keys** (`Pix.dfy`). These are keys of the Brazilian instant-payment
  system: e-mail, phone, CPF, CNPJ or random key.
  - Detection is proved to be a first-match-wins chain.
  - The phone rules, the e-mail pattern and the random-key pattern are
    characterised as written.
  - The phone formatter is proved to preserve the digits.
- **The sign-up/sign-in page** (`AuthForm.dfy`).
  - The validation chains are pure functions, stated against predicates
    that describe each check.
  - The page state is the class `AuthPage`. Its handlers and the mode
    toggle reset its fields.

`Text.dfy` holds the JavaScript string behaviour the source relies on:
- `\d` and `\D` digit stripping;
- the ECMAScript `\s` set, which is also what `trim()` removes;
- `trim()` itself;
- ASCII `toLowerCase()`.

## Model

| member | source | states |
|---|---|---|
| Text.DigitsOf | src/lib/cpfCnpjUtils.ts:2 | `replace(/\D/g, '')` keeps only digits, never lengthens, and leaves an all-digit string as it is |
| Text.DigitsOfAppend | src/lib/cpfCnpjUtils.ts:2 | digit stripping distributes over concatenation |
| Text.DigitsOfInsert | src/lib/cpfCnpjUtils.ts:6-16 | inserting one non-digit separator anywhere leaves the digits unchanged |
| Text.Trim | src/lib/pixUtils.ts:49-51 | `trim()` gives a suffix of a prefix of its input; the result is empty iff the input is all whitespace; it neither starts nor ends with whitespace |
| Text.SliceBetweenWhitespace | src/lib/pixUtils.ts:49-51 | stripping a whitespace prefix and then a whitespace suffix leaves the slice of the input between two whitespace runs; it is empty exactly when the input is all whitespace, and otherwise neither starts nor ends with whitespace. This is how `Trim`'s contract is proved |
| Text.Blank | src/pages/Auth.tsx:36 | `!s.trim()` holds exactly when every character is whitespace |
| Text.BlankIsTrimmedEmpty | src/pages/Auth.tsx:36 | `Blank` agrees with `Trim(s) == []` |
| Text.ToLower | supabase/functions/asaas-webhook/index.ts:135 | `toLowerCase()` keeps the length, maps each character, and leaves no upper-case ASCII letter |
| CpfCnpj.CpfCheckDigit | src/lib/cpfCnpjUtils.ts:33-34 | the CPF check digit lies in 0..9 and makes digit + sum a multiple of 11, except for remainder 1, which gives 0 |
| CpfCnpj.CnpjCheckDigit | src/lib/cpfCnpjUtils.ts:64 | the CNPJ check digit obeys the same modulo-11 property: remainders 0 and 1 give 0 |
| CpfCnpj.RepeatsOneDigitMeans | src/lib/cpfCnpjUtils.ts:26 | `/^(\d)\1+$/` on a digit string holds iff it has two or more digits, all equal (the same test is at line 55) |
| CpfCnpj.ValidateCpf | src/lib/cpfCnpjUtils.ts:20-47 | the two accumulation loops return true iff `IsValidCpf`: exactly 11 digits after stripping, not all one digit, and both check digits satisfy the rule with weights 10..2 and 11..2 |
| CpfCnpj.ValidateCnpj | src/lib/cpfCnpjUtils.ts:49-78 | the loops, with the weight stepping down and wrapping 2 to 9 from 5 and then 6, return true iff `IsValidCnpj`: 14 digits, not all one digit, both check digits correct |
| CpfCnpj.CnpjWeightsCycle | src/lib/cpfCnpjUtils.ts:59-62 | the weight tables are the sequence the `pos` update produces |
| CpfCnpj.CpfDeterminedByBase | src/lib/cpfCnpjUtils.ts:29-44 | two valid CPFs with the same first nine digits are equal: the check digits are a function of the base |
| CpfCnpj.CnpjDeterminedByBase | src/lib/cpfCnpjUtils.ts:57-75 | two valid CNPJs with the same first twelve digits are equal |
| CpfCnpj.CheckCpfCnpj | src/lib/cpfCnpjUtils.ts:80-100 | the verdict is valid iff the value is a valid CPF or CNPJ, and has a message iff invalid. No digits gives "Campo obrigatório". 11 or 14 digits give the CPF or CNPJ message. Any other count gives the length message |
| CpfCnpj.FirstDigitRun | src/lib/cpfCnpjUtils.ts:7-8 | the leftmost match position of `/(\d{k})(\d)/`: the first position where `len` digits start |
| CpfCnpj.SeparateAfterRun | src/lib/cpfCnpjUtils.ts:7-8 | one leftmost `replace(/(\d{k})(\d)/, '$1<sep>$2')` keeps the digits of the string |
| CpfCnpj.SeparateTail | src/lib/cpfCnpjUtils.ts:9 | the `$`-anchored `replace(/(\d{k})(\d{1,2})$/, '$1-$2')` keeps the digits of the string |
| CpfCnpj.FormatCpfCnpj | src/lib/cpfCnpjUtils.ts:1-18 | the output of `formatCpfCnpj` has exactly the digits of its input |
| CpfCnpj.FormatCpfShape | src/lib/cpfCnpjUtils.ts:4-9 | with 11 digits the output is XXX.XXX.XXX-XX |
| CpfCnpj.FormatCnpjShape | src/lib/cpfCnpjUtils.ts:10-16 | with 14 digits the output is XX.XXX.XXX/XXXX-XX |
| CpfCnpj.FormatKeepsValidity | src/lib/cpfCnpjUtils.ts:1-100 | formatting never changes CPF or CNPJ validity, nor the field verdict |
| Pix.FirstIndex | src/lib/pixUtils.ts:6 | the first occurrence of a character, or its absence |
| Pix.ValidateEmail | src/lib/pixUtils.ts:5-8 | true iff the pattern `/^[^\s@]+@[^\s@]+\.[^\s@]+$/` matches: no whitespace, exactly one '@' with text before it, and a '.' inside the part after it that is neither its first nor its last character |
| Pix.EmailPatternSplit | src/lib/pixUtils.ts:6 | the position reading of the pattern equals the split at the first '@' |
| Pix.ValidatePhone | src/lib/pixUtils.ts:10-39 | true iff the digits are (55, then 10 or 11 more, DDD at least 11) or (no 55, exactly 11 digits, DDD at least 11). The 10-digit branch never accepts. An 11-digit string starting 55 is refused |
| Pix.StripKeySeparatorsFacts | src/lib/pixUtils.ts:43 | the stripped key contains a character iff the key contains it and it is neither '-' nor whitespace; its length is the number of such characters in the key; it is all hex iff they all are |
| Pix.StripKeySeparators | src/lib/pixUtils.ts:43 | `replace(/[-\s]/g, '')` leaves no hyphen and no whitespace |
| Pix.StripKeySeparatorsAppend | src/lib/pixUtils.ts:43 | stripping distributes over concatenation, so the kept characters stay in their order |
| Pix.ValidateRandomKey | src/lib/pixUtils.ts:41-46 | true iff exactly 32 characters are neither '-' nor whitespace and each of them is a hexadecimal digit of either case |
| Pix.RandomKeyIgnoresSeparator | src/lib/pixUtils.ts:43 | inserting a hyphen or a blank anywhere never changes the verdict |
| Pix.DetectPixKeyType | src/lib/pixUtils.ts:48-70 | blank gives `invalid`; otherwise the type returned passes its own test on the trimmed key and every earlier test fails, and `invalid` means every test fails |
| Pix.NoAtNoEmail | src/lib/pixUtils.ts:5-8 | a key without '@' is never an e-mail key |
| Pix.CpfKeyPrefix | src/lib/pixUtils.ts:57-61 | a key is classified CPF only when its 11 digits begin with 55 or with a DDD below 11 |
| Pix.ValidCpfReadAsPhone | src/lib/pixUtils.ts:57-61 | a valid CPF whose first two digits form a DDD of 11 or more (not 55) is classified as a phone key |
| Pix.ValidatePixKey | src/lib/pixUtils.ts:94-119 | valid iff a type was detected; the type is the detected one; blank input and undetected input get their messages |
| Pix.IsBlankMeansAllWhitespace | src/lib/pixUtils.ts:49 | the guard `!key \|\| key.trim().length === 0` (also at line 95) holds iff every character of the key is whitespace |
| Pix.PixKeyTypeLabel | src/lib/pixUtils.ts:121-131 | every key type has a non-empty label |
| Pix.PixKeyTypeLabelsDistinct | src/lib/pixUtils.ts:121-131 | no two key types share a label |
| Pix.FormatPixPhone | src/lib/pixUtils.ts:72-92 | digit counts other than 10, 11, or 12 and more beginning 55 return the input unchanged |
| Pix.InternationalLayoutDigits | src/lib/pixUtils.ts:76-81 | `+CC (DD) first-last` carries the digits in order |
| Pix.LocalLayoutDigits | src/lib/pixUtils.ts:85-89 | `(DD) first-last` carries the digits in order |
| Pix.FormatPixPhoneDigits | src/lib/pixUtils.ts:72-92 | the formatted phone has exactly the digits of the input |
| Pix.FormatPixPhoneKeepsValidity | src/lib/pixUtils.ts:10-39 | formatting a phone never changes whether it is a valid phone |
| Webhook.MapStatus | supabase/functions/asaas-webhook/index.ts:90-106 | each internal status is reached from exactly its listed gateway statuses; anything unlisted is pending, never paid |
| Webhook.TokenGateAdmits | supabase/functions/asaas-webhook/index.ts:48-57 | an unset or empty configured token admits every request; a configured token admits exactly the requests whose header equals it |
| Webhook.InsertedRowIsMarked | supabase/functions/asaas-webhook/index.ts:65-181 | for a payment with a truthy id, the audit row inserted first is the one the final mark-processed step sets processed; earlier rows under other keys are untouched |
| Webhook.InsertedLog | supabase/functions/asaas-webhook/index.ts:65-76 | one audit row is added, or none when the insert fails |
| Webhook.MarkProcessed | supabase/functions/asaas-webhook/index.ts:175-181 | every audit row under the key is set processed, and no other row changes |
| Webhook.LookupKeyOf | supabase/functions/asaas-webhook/index.ts:108-120 | the query selects exactly the rows whose `external_id` equals a truthy external reference, or, when there is none, the rows whose `asaas_payment_id` equals the payment id |
| Webhook.MatchingIndices | supabase/functions/asaas-webhook/index.ts:109-119 | the rows the equality filter selects, in table order |
| Webhook.MaybeSingle | supabase/functions/asaas-webhook/index.ts:122-127 | `maybeSingle()` gives no row iff none matches, the unique matching row when one does, and the error iff two or more match |
| Webhook.NoFallbackToPaymentId | supabase/functions/asaas-webhook/index.ts:109-120 | a truthy external reference that no row carries leaves the table unchanged, even if a row holds the payment id |
| Webhook.LookupByExternalReference | supabase/functions/asaas-webhook/index.ts:109-112 | with a truthy external reference carried by exactly one row, that row is the one rewritten |
| Webhook.LookupByPaymentId | supabase/functions/asaas-webhook/index.ts:114-120 | without one, the single row carrying the payment id is the one rewritten |
| Webhook.UpdateById | supabase/functions/asaas-webhook/index.ts:144-147 | every row with the id is updated, and the others are kept |
| Webhook.ApplyUpdate | supabase/functions/asaas-webhook/index.ts:131-147 | only the six webhook columns may change; status, gateway id and `updated_at` are written; an invoice URL, payment method or `paid_at` left undefined keeps its column's value, and one that is sent is written |
| Webhook.UpdateByIdIsPointUpdate | supabase/functions/asaas-webhook/index.ts:144-147 | with unique ids, updating by the found row's id rewrites that row alone |
| Webhook.PointUpdateKeepsIds | supabase/functions/asaas-webhook/index.ts:144-147 | the update keeps the primary key unique |
| Webhook.UpdateTouchesOnlyWebhookColumns | supabase/functions/asaas-webhook/index.ts:131-147 | only status, gateway id, invoice URL, payment method, `updated_at` and `paid_at` may change; amount, fee, net and every other column keep their values |
| Webhook.PaidAtNeverCleared | supabase/functions/asaas-webhook/index.ts:139-142 | after the update, `paid_at` is `confirmedDate` when the status is paid and that date is truthy, else `paymentDate` when paid and truthy; otherwise it keeps its value. It is never cleared |
| Webhook.UpdateIdempotent | supabase/functions/asaas-webhook/index.ts:131-147 | applying the same payload twice gives the once-updated row, apart from `updated_at` |
| Webhook.UpdatedRowStillMatches | supabase/functions/asaas-webhook/index.ts:109-147 | the updated row is still selected by the key that found it |
| Webhook.MaybeSingleAfterPointUpdate | supabase/functions/asaas-webhook/index.ts:122-147 | replacing the single match by another matching row leaves the lookup result unchanged |
| Webhook.RedeliveryIdempotent | supabase/functions/asaas-webhook/index.ts:108-152 | delivering a payload twice leaves the table as one delivery at the later time |
| Webhook.DeliveriesKeepAmounts | supabase/functions/asaas-webhook/index.ts:131-147 | over any series of deliveries, every row keeps its id, amount, fee and net; so `net = amount - fee` is preserved |
| Webhook.ReconcileRows | supabase/functions/asaas-webhook/index.ts:108-152 | after one delivery whose store calls succeed, only the single matching row may differ, and it is the row with the update applied; a miss or several matches leave the table as it was |
| Webhook.WebhookEndpoint.constructor | supabase/functions/asaas-webhook/index.ts:39-42 | a deployment with its configured token and table; no audit rows and no notifications |
| Webhook.WebhookEndpoint.Handle | supabase/functions/asaas-webhook/index.ts:33-208 | see below |
| Webhook.WebhookEndpoint.Reconcile | supabase/functions/asaas-webhook/index.ts:87-193 | see below |
| Webhook.WebhookEndpoint.UpdateFound | supabase/functions/asaas-webhook/index.ts:129-170 | the found row alone is rewritten by the update; one notification for its id is queued iff the status is paid; the audit log is untouched; ids stay unique |
| AuthForm.SignUpError | src/pages/Auth.tsx:36-54 | None iff every check passes; otherwise the message of the first failing check, in order: name (not blank, at least 3 characters untrimmed), email (not blank, contains '@'), password (at least 8 characters), terms accepted |
| AuthForm.SignInError | src/pages/Auth.tsx:74-82 | None iff the email passes and the password is not blank; otherwise the first failing check's message |
| AuthForm.SignUpCredentialsPassSignIn | src/pages/Auth.tsx:36-82 | credentials sign-up accepts pass sign-in iff the password is not all whitespace |
| AuthForm.BlankPasswordAcceptedOnlyAtSignUp | src/pages/Auth.tsx:46-49 | eight spaces pass the sign-up length check but fail the sign-in blank check |
| AuthForm.PaddedShortNameAccepted | src/pages/Auth.tsx:36-39 | the name length counts surrounding blanks: " Al" passes |
| AuthForm.ClearedFormIsRefused | src/pages/Auth.tsx:246-251 | the cleared fields fail the first check of both chains |
| AuthForm.AuthPage.constructor | src/pages/Auth.tsx:15-22 | the page starts in sign-in mode with every field empty and not loading |
| AuthForm.AuthPage.HandleSignUp | src/pages/Auth.tsx:32-68 | a failed check shows its message and changes nothing else. Otherwise the sign-up call is made once with the fields as typed, the four fields are cleared iff the call completes, and `isLoading` is false on exit |
| AuthForm.AuthPage.HandleSignIn | src/pages/Auth.tsx:70-94 | the same for sign-in: email and password are cleared iff the call completes; name, terms and mode are untouched |
| AuthForm.AuthPage.ToggleMode | src/pages/Auth.tsx:246-251 | flips `isSignUp` and clears name, email, password and the terms box; nothing else changes |

The `states` cell for `Handle` is too long for the table.
- The token gate runs first. It rejects only when the configured token is
  truthy and the header differs. The result is 401, with nothing written.
- An unparsable body gets 500, with nothing written.
- A payload without a payment gets 200. It adds only the audit row.
- For a payload with a payment, `Handle` defers to `Reconcile`'s outcome,
  starting from the tables with the audit row added.

`Reconcile`'s outcome is the predicate `ReconcileOutcome`.
- A fetch error gets 500 and writes nothing more. So do several matching
  rows and an update error.
- Otherwise the response is 200 with the mapped status.
- The table becomes `ReconcileRows`: the single match updated, or
  unchanged on a miss.
- One notification is queued for the row id exactly when a row was found
  and the status is paid.
- Every audit row under a truthy payment id is marked processed, even on a
  miss, unless that update fails.

## Left out

- The JSX, the terms dialog, routing and every presentation component.
  They only render.
- CORS preflight, `console` logging and `Deno.env`. `new Date()` and
  `crypto.randomUUID()` become the `Env` parameter of `Handle`.
- `verifyWebhookSignature`: a library HMAC-SHA256 that the handler never
  calls.
- The notification call is not awaited in the source. The model records
  its dispatch as an appended transaction id. Concurrent deliveries and
  database last-write-wins are not modelled.
- The gateway's `value`/`netValue` numbers are not carried by `Payment`.
  The handler never reads them.
- Row amounts are opaque integers proved untouched. The fee arithmetic
  that produced them belongs to the payment-creation function, which is
  not part of this model.
- Database failures are a `Faults` value. The source only observes each
  call's `error` result. A failed mark-processed update is ignored, as in
  the source.
- Webhook.MapStatus: a gateway status equal to an `Object.prototype`
  member name (such as `constructor`) reads an inherited value in
  JavaScript. The model treats every unlisted string as pending.
- A body is modelled as text that does not parse (`Malformed`, the 500
  path) or as an object whose fields have the declared types. JSON that
  parses to `null`, to a non-object value or to fields of other types is
  not modelled.
- `Text.ToLower` maps only ASCII A-Z. Gateway billing types are ASCII.
- String lengths count Unicode characters rather than UTF-16 code units.
  They differ only for characters outside the Basic Multilingual Plane.
- `signUp`/`signIn` of the authentication hook are not part of this model.
  Whether each call completes is a parameter of the handler. Their own
  toasts are not recorded.
- AuthForm.AuthPage.HandleSignUp: `isLoading` is true only while the
  awaited call runs. The model runs the call synchronously, so only the
  value on exit is stated.
- AuthForm.AuthPage.HandleSignIn: does not state `isLoading` during the
  call, for the same reason.
- The `user` redirect effect and `showPassword`/`showTermsModal` are
  display state.
