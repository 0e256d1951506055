# RazorPayMandate core in Dafny

This project models the core of RazorPayMandate, a FastAPI service for
Razorpay eMandates: recurring payments that a customer authorizes once and
that the merchant then charges again within an agreed ceiling.

The model covers:

- **Models and schemas.** The database rows, their status enums and the
  pydantic request schemas with their amount validators.
- **The service layer.** Creating and updating customers, mandates, orders,
  payments and webhook events. The UNIQUE and NOT NULL constraints of the
  schema are enforced at commit.
- **The mock Razorpay gateway.** The client the development environment
  uses, and the rule that chooses between the mock and the live client.
- **The background tasks.** eMandate authorization, recurring payment,
  mandate validation, webhook event processing, and the periodic scan for
  failed payments. Celery's retry rule is included.
- **The HTTP endpoints.** The three eMandate endpoints and the three webhook
  endpoints: every status code, every message and the response envelope.
- **The helpers.** The response envelope helpers and webhook signature
  validation.

Imperative parts use classes:

- The database session and services are one class, `Database.Store`. It has
  one map per table and one id counter per table. Its invariant `Valid()`
  states the schema's constraints.
- The mock gateway is `Gateway.MockRazorpayClient`.
- The Celery queue is `Tasks.TaskQueue`.

Every method that changes state states its whole new state against a
snapshot of the tables (`State()`).

Pure rules are functions with lemmas beside them. Examples are the update of
a row from a partial schema, the effect of a webhook event on the payment and
order tables, and the request checks of the endpoints.

Data types are modelled as follows:

- Amounts are exact `real` values. The gateway receives whole paise,
  truncated toward zero.
- JSON values are a `Json` datatype.
- Python exceptions are an `Exc` datatype. Every error path is a value,
  either a `Result` or a `TaskOutcome`.
- `json.loads`, HMAC-SHA256 and the clock reading for the envelope's
  timestamp are parameters.

## Model

| member | source | states |
|---|---|---|
| Models.MandateStatusOf | app/models/models.py:9-15 | a lookup by value returns the member whose value it is |
| Models.PaymentStatusOf | app/models/models.py:18-23 | a lookup by value returns the member whose value it is |
| Models.TransactionTypeOf | app/models/models.py:26-29 | a lookup by value returns the member whose value it is |
| Models.MandateStatusEnumeration | app/models/models.py:9-15 | exactly six mandate statuses with pairwise distinct values, each found again from its value |
| Models.PaymentStatusEnumeration | app/models/models.py:18-23 | exactly five payment statuses with pairwise distinct values, each found again from its value |
| Models.TransactionTypeRoundTrip | app/models/models.py:26-29 | every transaction type is found again from its value |
| Models.StoredMandateStatus | app/models/models.py:57 | the Enum column stores a member by its name and any other string unchanged |
| Models.LoadMandateStatus | app/models/models.py:57 | reading the column gives the member with the stored name, and raises LookupError iff no member has that name |
| Models.StoredTransactionType | app/models/models.py:84 | the Enum column stores a member by its name and any other string unchanged |
| Models.LoadTransactionType | app/models/models.py:84 | reading the column gives the member with the stored name, and raises LookupError iff no member has that name |
| Models.EnumColumnsRoundTrip | app/models/models.py:57 | a member written to its Enum column reads back as itself |
| Models.LowerCaseTextIsNoName | app/models/models.py:9-29 | a stored text starting in lower case, as every enum value does, names no member and raises LookupError on read |
| Models.NewMandate | app/models/models.py:49-66 | a new mandate has status CREATED (the column default) and no gateway id, and keeps every given field: customer, amount, currency, frequency, both dates, the three bank fields and notes |
| Models.NewPayment | app/models/models.py:73-93 | a new payment has status CREATED, the given transaction type (RECURRING_PAYMENT by default), and no gateway ids, fee, tax or error; customer, mandate, amount, currency, description, receipt and notes are kept |
| Models.NewOrder | app/models/models.py:100-113 | a new order has zero attempts and keeps the given gateway id, customer, amount, currency, receipt, status and notes |
| Models.NewWebhookEvent | app/models/models.py:116-126 | a new event is unprocessed, has no error and no processed_at, and keeps id, type and payload |
| Models.StatusValue | app/api/v1/endpoints/emandate.py:173 | `status.value` succeeds exactly when the status is not NULL, and then gives the enum's value |
| Schemas.MandateStatusToModel | app/schemas/schemas.py:8-14 | the schema enum maps to the model enum with the same value |
| Schemas.MandateStatusFromModel | app/schemas/schemas.py:8-14 | the model enum maps to the schema enum with the same value |
| Schemas.PaymentStatusToModel | app/schemas/schemas.py:17-22 | same value in both enums |
| Schemas.PaymentStatusFromModel | app/schemas/schemas.py:17-22 | same value in both enums |
| Schemas.TransactionTypeToModel | app/schemas/schemas.py:25-28 | same value in both enums |
| Schemas.TransactionTypeFromModel | app/schemas/schemas.py:25-28 | same value in both enums |
| Schemas.SchemaEnumsMirrorModel | app/schemas/schemas.py:8-28 | the schema and model enums are in bijection, both ways round |
| Schemas.ValidateAmount | app/schemas/schemas.py:80-84 | an amount is accepted iff it is positive, and is kept unchanged; otherwise "Amount must be greater than 0" |
| Schemas.CheckAmount | app/schemas/schemas.py:120-124 | a schema with the validator accepts iff the amount is positive; any accepted amount is kept |
| Schemas.EMandateRequestsAcceptAnyAmount | app/schemas/schemas.py:205-220 | the two eMandate request schemas have no validator and accept every amount, zero and negatives included |
| Schemas.MakeMandateCreate | app/schemas/schemas.py:69-88 | built iff the amount is positive and the notes are null or a string (amount checked first); the customer, amount, frequency, dates and notes are kept, the currency defaults to INR and the three bank fields to None |
| Schemas.MakePaymentCreate | app/schemas/schemas.py:113-130 | built iff the amount is positive and the notes are null or a string; customer, mandate, amount, description, receipt and notes are kept; currency INR and RECURRING_PAYMENT by default |
| Schemas.MakeOrderCreate | app/schemas/schemas.py:153-164 | built iff the amount is positive and the notes are null or a string; amount, receipt, notes and customer are kept, currency INR by default |
| Helpers.FormatApiResponse | app/utils/helpers.py:63-82 | success, message and timestamp are always present; data and errors are present exactly when given; there are no other keys |
| Helpers.FormatSuccessResponse | app/utils/helpers.py:85-90 | success is true, there is no errors key, and data is present iff given |
| Helpers.FormatErrorResponse | app/utils/helpers.py:93-98 | success is false, there is no data key, and errors is present iff given |
| Helpers.SuccessResponse | app/api/v1/endpoints/emandate.py:65-73 | the status code, and a success envelope whose data is the given map |
| Helpers.ErrorResponse | app/api/v1/endpoints/emandate.py:32-35 | the status code, and a body whose only key is `detail`, holding the error envelope |
| Helpers.ValidateWebhookSignature | app/utils/helpers.py:101-116 | valid only when the signature equals the digest; a non-ASCII signature (compare_digest raises) is invalid |
| Helpers.SignatureValidIffEqualsDigest | app/utils/helpers.py:101-116 | for a hex digest, valid iff the signature equals it |
| Text.NatToString | app/services/razorpay_service.py:103 | the decimal rendering is non-empty, made of digits, and one digit long exactly below 10 |
| Text.IntToString | app/api/v1/endpoints/emandate.py:53 | the decimal digits of the number, after a `-` exactly when it is negative |
| Text.IntToStringInjective | app/api/v1/endpoints/emandate.py:53 | distinct numbers render differently, so each receipt names one mandate |
| Text.ParseNatRoundTrip | app/services/razorpay_service.py:103 | parsing a rendered number gives the number back |
| Text.NatToStringInjective | app/services/razorpay_service.py:103 | distinct numbers render differently |
| Text.MockId | app/services/razorpay_service.py:103 | a mock id starts with its prefix and is longer than it |
| Text.MockIdRoundTrip | app/services/razorpay_service.py:123 | the counter is recovered from a mock id |
| Text.MockIdInjective | app/services/razorpay_service.py:123 | two mock ids with one prefix are equal iff their counters are |
| Text.MockIdPrefixesDisjoint | app/tasks/emandate_tasks.py:42 | ids under prefixes that do not extend one another never collide |
| Values.Get | app/services/razorpay_service.py:107-111 | `dict.get`: the stored value when the key is present, otherwise the default |
| Values.OptText | app/services/database_service.py:166 | None becomes null and a string stays a string |
| Values.PyIn | app/api/v1/endpoints/webhooks.py:47 | `key in x` raises iff x is not a container; on a dict it is key membership |
| Values.Div100 | app/tasks/webhook_tasks.py:109-110 | `x / 100` succeeds iff x is a number (bool included); an int gives x/100 |
| Gateway.NextIdIsFresh | app/services/razorpay_service.py:123 | while the ids are counted from one, the next id is not yet used |
| Gateway.NextIdKeepsCounting | app/services/razorpay_service.py:137 | storing under the next id keeps the ids counted and grows the map by one |
| Gateway.MockRazorpayClient.constructor | app/services/razorpay_service.py:93-99 | all stores are empty |
| Gateway.MockRazorpayClient.CreateCustomer | app/services/razorpay_service.py:101-115 | the document gets the next fresh `cust_mock_<n>` id and the request's fields, notes defaulting to {}; it is stored, and nothing else changes |
| Gateway.MockRazorpayClient.CreateOrder | app/services/razorpay_service.py:121-138 | a fresh `order_mock_<n>` id; amount due equals amount; nothing paid; status created; currency INR unless given; stored |
| Gateway.MockRazorpayClient.GetCustomer | app/services/razorpay_service.py:117-119 | the stored document under that id, or none |
| Gateway.MockRazorpayClient.GetOrder | app/services/razorpay_service.py:140-142 | the stored document under that id, or none |
| Gateway.MockRazorpayClient.GetPayment | app/services/razorpay_service.py:144-146 | the stored document, or the empty dict |
| Gateway.MockRazorpayClient.CapturePayment | app/services/razorpay_service.py:148-154 | a non-empty stored payment gets status captured and the new amount; otherwise the empty result and no change |
| Gateway.MockRazorpayClient.RefundPayment | app/services/razorpay_service.py:156-167 | a processed INR refund for the payment and amount, numbered from the payment count |
| Gateway.ClientFor | app/services/razorpay_service.py:171-175 | the mock iff the environment is development or debug is on |
| Gateway.RefundBody | app/services/razorpay_service.py:82-87 | the body holds `amount` iff an amount is given and it is non-zero (truthy), and nothing else |
| Tasks.TaskQueue.constructor | app/api/v1/endpoints/emandate.py:59-63 | the queue starts empty |
| Tasks.TaskQueue.Enqueue | app/api/v1/endpoints/emandate.py:59-63 | `.delay` appends the task with no retries spent; its id is its position |
| Tasks.TaskQueue.Retry | app/tasks/emandate_tasks.py:55-60 | the outcome follows RetryOutcome; the task is queued again with one more retry exactly when retries remain |
| Tasks.RetryOutcome | app/tasks/emandate_tasks.py:60 | a retry is scheduled iff fewer than max retries were spent, and otherwise the run fails with the same exception |
| Database.DerivedMandateIdsUnique | app/tasks/emandate_tasks.py:42 | gateway mandate ids derived from row ids never clash (models.py:53 is UNIQUE) |
| Database.DerivedPaymentIdsUnique | app/tasks/emandate_tasks.py:109 | gateway payment ids derived from row ids never clash (models.py:77 is UNIQUE) |
| Database.CustomerInsertKeepsInvariant | app/models/models.py:32-42 | inserting a customer with an unused email and gateway id keeps the table's constraints |
| Database.CustomerReplaceKeepsInvariant | app/models/models.py:32-42 | replacing a customer keeps the constraints when no other row has the email |
| Database.MandatesKeepInvariantAsCustomersGrow | app/models/models.py:54 | the mandate foreign keys stay valid as customers are added |
| Database.MandateInsertKeepsInvariant | app/models/models.py:49-66 | inserting a mandate of an existing customer keeps the constraints |
| Database.MandateReplaceKeepsInvariant | app/models/models.py:49-66 | replacing a mandate keeps the constraints when its gateway id is none or derived from its row id |
| Database.PaymentInsertKeepsInvariant | app/models/models.py:73-93 | inserting a payment without a gateway id keeps the constraints |
| Database.PaymentReplaceKeepsInvariant | app/models/models.py:73-93 | replacing a payment keeps the constraints when its gateway id is none or derived from its row id |
| Database.OrderInsertKeepsInvariant | app/models/models.py:100-113 | inserting an order with an unused gateway id keeps the constraints |
| Database.OrderReplaceKeepsInvariant | app/models/models.py:100-113 | replacing an order with the same gateway id keeps the constraints |
| Database.WebhookInsertKeepsInvariant | app/models/models.py:116-126 | inserting an event with an unused event id keeps the constraints |
| Database.WebhookReplaceKeepsInvariant | app/models/models.py:116-126 | replacing an event with the same event id keeps the constraints |
| Database.RowsWhere | app/tasks/webhook_tasks.py:198-200 | a filtered scan of keys lo..hi lists at most hi-lo rows |
| Database.RowsWhereMembership | app/tasks/webhook_tasks.py:198-200 | a key is listed iff it is in range, stored, and matches the filter |
| Database.RowsWhereIncreasing | app/tasks/webhook_tasks.py:198-200 | the listed keys are strictly increasing |
| Database.RowsWherePrefix | app/tasks/webhook_tasks.py:198-200 | the scan of a shorter range is a prefix of the longer one |
| Database.Take | app/tasks/webhook_tasks.py:200 | `LIMIT n` is a prefix of length min(n, length) |
| Database.Trunc | app/services/database_service.py:164 | `int(x)` truncates toward zero |
| Database.ToPaise | app/services/database_service.py:164 | the paise are amount*100 truncated toward zero: its whole part for a non-negative amount, its ceiling for a negative one |
| Database.ToPaiseExact | app/services/database_service.py:164 | an amount with whole paise converts back exactly |
| Database.Assign | app/services/database_service.py:75-77 | an unset field keeps the current value; a set one takes the sent value |
| Database.ApplyCustomerUpdate | app/services/database_service.py:69-81 | fails iff name or email is sent as null (NOT NULL); otherwise only the sent fields change, and never the gateway id |
| Database.CustomerUpdateIdempotent | app/services/database_service.py:69-81 | applying the same update twice equals applying it once |
| Database.ApplyMandateUpdate | app/services/database_service.py:133-145 | fails iff amount is sent as null; otherwise each sent field takes the sent value and every other field is kept (customer, gateway id, currency and bank fields included); a sent status is the column member with the same value, which reads back as itself |
| Database.MandateUpdateIdempotent | app/services/database_service.py:133-145 | applying the same update twice equals applying it once |
| Database.PaymentWith | app/tasks/webhook_tasks.py:84-86 | the row holding that gateway payment id, or none when no row does |
| Database.OrderWith | app/tasks/webhook_tasks.py:145-147 | the row holding that gateway order id, or none when no row does |
| Database.WebhookWith | app/api/v1/endpoints/webhooks.py:98 | the row holding that event id, or none when no row does |
| Database.Store.constructor | app/services/database_service.py:19-21 | empty tables that satisfy the invariant and are linked to a fresh gateway |
| Database.Store.CreateCustomerWith | app/services/database_service.py:23-59 | the gateway document is created first; the row is added iff neither the email nor the gateway id is taken; otherwise "Customer with this email already exists" and no row |
| Database.Store.CreateCustomer | app/services/database_service.py:23-59 | with the shared gateway, refused exactly when the email is taken; otherwise one new row with a fresh gateway id |
| Database.Store.UpdateCustomer | app/services/database_service.py:69-81 | None for an unknown id; a NOT NULL or UNIQUE(email) failure changes nothing; otherwise exactly that row is replaced |
| Database.Store.CreateMandate | app/services/database_service.py:95-127 | "Customer not found" with no change for an unknown customer; otherwise exactly one new mandate row |
| Database.Store.UpdateMandate | app/services/database_service.py:133-145 | None for an unknown id; a NOT NULL failure changes nothing; otherwise exactly that row is replaced by ApplyMandateUpdate's row |
| Database.Store.InsertOrder | app/services/database_service.py:173-186 | the order row is added iff its gateway id is unused; otherwise an IntegrityError and no change |
| Database.Store.CreateOrderWith | app/services/database_service.py:159-193 | the gateway receives the amount in paise; the row keeps rupees and the gateway's status; a clash on the gateway id adds no row |
| Database.Store.CreateOrder | app/services/database_service.py:159-193 | with the shared gateway, always exactly one new row with a fresh gateway id and status created |
| Database.Store.CreatePayment | app/services/database_service.py:195-219 | exactly one new row with status CREATED, the record's fields, and the column member of the requested transaction type |
| Database.Store.CreateWebhookEvent | app/services/database_service.py:236-255 | one new unprocessed row iff the event id is unused; otherwise an IntegrityError and no change |
| Database.Store.MarkWebhookProcessed | app/services/database_service.py:257-265 | true iff the row exists; then it is processed and the error is set or cleared; nothing else changes |
| Database.Store.FindPayment | app/tasks/webhook_tasks.py:84-86 | the row with that gateway payment id, or None |
| Database.Store.FindOrder | app/tasks/webhook_tasks.py:145-147 | the row with that gateway order id, or None |
| Database.Store.FindWebhook | app/api/v1/endpoints/webhooks.py:98 | the row with that event id, or None |
| EMandateTasks.Authorized | app/tasks/emandate_tasks.py:40-43 | status AUTHORIZED and gateway id `mandate_mock_<id>`; no other field changes |
| EMandateTasks.Validated | app/tasks/emandate_tasks.py:151-153 | CONFIRMED once the gateway id is set and non-empty; otherwise unchanged; only the status can change |
| EMandateTasks.ValidatedIdempotent | app/tasks/emandate_tasks.py:151-153 | validating twice equals validating once |
| EMandateTasks.AuthorizeThenValidateConfirms | app/tasks/emandate_tasks.py:82-83 | an authorized mandate is CONFIRMED by validation and then passes the recurring task's guard |
| EMandateTasks.RecurringGuard | app/tasks/emandate_tasks.py:78-83 | goes ahead iff the mandate exists and is exactly CONFIRMED; otherwise "Mandate not found" or "Mandate is not confirmed" |
| EMandateTasks.NotesValue | app/tasks/emandate_tasks.py:90 | absent notes are null |
| EMandateTasks.ProcessEMandateAuthorization | app/tasks/emandate_tasks.py:20-63 | a missing mandate is retried with no change; otherwise one order is created and the mandate becomes AUTHORIZED with its gateway id, and the result names both |
| EMandateTasks.CapturedRecurringPayment | app/tasks/emandate_tasks.py:97-111 | CAPTURED, RECURRING_PAYMENT, `pay_mock_<id>`, the order's gateway id, the amount, and currency INR unless given |
| EMandateTasks.RecurringOrder | app/tasks/emandate_tasks.py:86-92 | the OrderCreate is built iff the amount is positive and there are no notes; it carries the amount, receipt, mandate's customer and currency INR by default |
| EMandateTasks.RecurringPaymentRecord | app/tasks/emandate_tasks.py:97-106 | the PaymentCreate is built exactly when the order record is; it carries customer, mandate, amount, description, receipt and RECURRING_PAYMENT |
| EMandateTasks.ProcessRecurringPayment | app/tasks/emandate_tasks.py:66-132 | the guard's refusal, and then a refused order record, are retried before anything is written; otherwise exactly one order and one captured payment are added |
| EMandateTasks.ChargeRecurring | app/tasks/emandate_tasks.py:94-122 | on a mandate that passes the guard with a valid order record, one gateway order and one captured payment are added, and the result names that payment's id, gateway id and amount |
| EMandateTasks.RecordCapturedPayment | app/tasks/emandate_tasks.py:97-112 | the payment row is inserted under the next id and left CAPTURED with its own mock id and the order's gateway id; nothing else changes |
| EMandateTasks.ValidateMandateStatus | app/tasks/emandate_tasks.py:135-168 | a missing mandate fails without retry; otherwise the mandate is validated, and the result is its status value, or a failure when that is NULL |
| WebhookTasks.EntityOf | app/tasks/webhook_tasks.py:77-78 | the entity dict, defaulting to {}; the error when the payload is not a dict, or when the entity is not one (its `.get` raises next) |
| WebhookTasks.EntityKey | app/tasks/webhook_tasks.py:78-81 | a key only for a truthy string id, which is that id |
| WebhookTasks.EventKey | app/tasks/webhook_tasks.py:77-81 | a key is found only through a dict entity holding it |
| WebhookTasks.UpdatePayment | app/tasks/webhook_tasks.py:88-131 | authorized, captured and failed set the status; captured writes fee and then tax, keeping earlier writes when a division raises; failed copies the error fields; nothing else changes |
| WebhookTasks.UpdatePaymentIdempotent | app/tasks/webhook_tasks.py:107-110 | applying a payment event to the same row twice equals applying it once |
| WebhookTasks.PaymentEvent | app/tasks/webhook_tasks.py:75-133 | same keys and gateway ids; only the row with the entity's id can change; a bad payload raises and changes nothing; no usable id, or no row with it, changes nothing |
| WebhookTasks.PaymentEventUpdatesNamedPayment | app/tasks/webhook_tasks.py:75-133 | the payment holding the entity's id becomes UpdatePayment's row (AUTHORIZED; CAPTURED with fee and tax; FAILED with the error fields), with its exception, and no other payment changes |
| WebhookTasks.OrderEvent | app/tasks/webhook_tasks.py:136-152 | only the row with the entity's id can change, and only its status, to paid; raises iff the payload is not a dict; no usable id, or no row with it, changes nothing |
| WebhookTasks.OrderEventMarksNamedOrderPaid | app/tasks/webhook_tasks.py:136-152 | the order holding the entity's id gets status "paid", no other order changes, and nothing is raised |
| WebhookTasks.ApplyEvent | app/tasks/webhook_tasks.py:37-51 | invalid JSON raises and changes nothing; the three payment types have exactly PaymentEvent's effect and order.paid exactly OrderEvent's; any other type changes nothing |
| WebhookTasks.PaymentWithFinds | app/models/models.py:77 | with unique gateway payment ids, the lookup finds exactly the row holding the id |
| WebhookTasks.OrderWithFinds | app/models/models.py:104 | with unique gateway order ids, the lookup finds exactly the row holding the id |
| WebhookTasks.PaymentEventIdempotent | app/tasks/webhook_tasks.py:75-133 | applying a payment event twice leaves the same table and error as applying it once |
| WebhookTasks.OrderEventIdempotent | app/tasks/webhook_tasks.py:136-152 | applying order.paid twice equals applying it once |
| WebhookTasks.ApplyEventIdempotent | app/tasks/webhook_tasks.py:37-51 | a redelivered event leaves the payment and order tables as the first delivery did |
| WebhookTasks.ApplyEventKeepsInvariant | app/tasks/webhook_tasks.py:37-51 | applying an event keeps the payment and order tables' constraints |
| WebhookTasks.ProcessPaymentEvent | app/tasks/webhook_tasks.py:75-133 | the payments table becomes PaymentEvent's, with its exception; nothing else changes |
| WebhookTasks.ProcessOrderPaid | app/tasks/webhook_tasks.py:136-152 | the orders table becomes OrderEvent's, with its exception; nothing else changes |
| WebhookTasks.Marked | app/tasks/webhook_tasks.py:53-66 | processed is set; the error text is recorded iff the run raised |
| WebhookTasks.ProcessWebhookEvent | app/tasks/webhook_tasks.py:19-72 | a missing row is retried; a processed row is skipped; otherwise the event is applied, the row is marked with the error if any, and a raising run is retried |
| WebhookTasks.RetriedRunIsSkipped | app/tasks/webhook_tasks.py:33-35 | a run that raised has marked its row processed, so the retry it queued returns already_processed without reapplying |
| WebhookTasks.ProcessFailedPaymentsRetry | app/tasks/webhook_tasks.py:190-219 | the first 100 failed payments in key order and their count; nothing is written |
| WebhookTasks.ScanListsFailedPayments | app/tasks/webhook_tasks.py:198-207 | only failed payments, each once, in increasing order; all of them when there are at most 100 |
| EMandateApi.MandateNotes | app/api/v1/endpoints/emandate.py:44 | null iff the notes are absent or empty, otherwise their rendering as text |
| EMandateApi.AuthorizationMandate | app/api/v1/endpoints/emandate.py:38-45 | the MandateCreate is built iff the amount is positive; it carries the request's customer, amount, frequency, dates and rendered notes, currency INR and no bank fields |
| EMandateApi.NotesJson | app/api/v1/endpoints/emandate.py:54 | absent notes are null |
| EMandateApi.AuthorizationOrderAccepted | app/api/v1/endpoints/emandate.py:50-56 | the OrderCreate is built iff the amount is positive and there are no notes; it has receipt `emandate_auth_<mandate id>` and currency INR |
| EMandateApi.AuthorizeEMandate | app/api/v1/endpoints/emandate.py:18-81 | 404 with no change for an unknown customer; 500 with no change for a non-positive amount; otherwise the mandate is stored, then either 500 with the mandate kept and nothing queued, or the task is queued and 202 names mandate and task |
| EMandateApi.RecurringRefusal | app/api/v1/endpoints/emandate.py:95-113 | goes ahead iff the mandate exists, is AUTHORIZED or CONFIRMED, and the amount is within its ceiling; otherwise 404 or 400 with the matching message |
| EMandateApi.RecurringData | app/api/v1/endpoints/emandate.py:116-121 | the request's amount and notes, with no currency key |
| EMandateApi.CreateRecurringPayment | app/api/v1/endpoints/emandate.py:84-144 | a refused request queues nothing; an accepted one queues one recurring task and answers 202; the store is only read |
| EMandateApi.AmountCeilingInclusive | app/api/v1/endpoints/emandate.py:109 | a payment of exactly the mandate's amount is accepted |
| EMandateApi.AuthorizedMandateAcceptedThenRefused | app/api/v1/endpoints/emandate.py:102 | the endpoint accepts an AUTHORIZED mandate that the task then refuses as "Mandate is not confirmed" |
| EMandateApi.AcceptedPaymentRunsIffConfirmed | app/api/v1/endpoints/emandate.py:102-113 | for an accepted request, the task goes ahead iff the mandate is CONFIRMED |
| EMandateApi.ValidateMandate | app/api/v1/endpoints/emandate.py:147-183 | 404 with nothing queued for an unknown mandate; otherwise the task is queued, then 200 with the current status, or 500 when the status is NULL |
| WebhooksApi.HasRequiredFields | app/api/v1/endpoints/webhooks.py:46-47 | raises iff the payload is not a container; on a dict, true iff event, account_id and entity are all keys |
| WebhooksApi.DeriveEventId | app/api/v1/endpoints/webhooks.py:55 | the entity's id when present, otherwise `unknown_<created_at>`; raises when the payload or entity is not a dict |
| WebhooksApi.CheckDelivery | app/api/v1/endpoints/webhooks.py:25-61 | 401 on a bad signature, 400 on invalid JSON, 400 on a missing field, 500 when a step raises or pydantic refuses; otherwise the event to store |
| WebhooksApi.WellFormedDeliveryAccepted | app/api/v1/endpoints/webhooks.py:25-61 | a signed JSON object with string event and entity id is accepted as that event with the raw body |
| WebhooksApi.HandleRazorpayWebhook | app/api/v1/endpoints/webhooks.py:17-88 | a refused delivery changes nothing; a repeated event id answers 500 and queues nothing; otherwise one row and one task, and 200 naming both |
| WebhooksApi.DeliverTwice | app/api/v1/endpoints/webhooks.py:63-66 | a redelivered event answers 500; the queue and the table grow by at most one |
| WebhooksApi.EventData | app/api/v1/endpoints/webhooks.py:108-115 | the row's id, type, processed flag and error |
| WebhooksApi.GetWebhookEvent | app/api/v1/endpoints/webhooks.py:91-124 | 404 iff no row has the event id; otherwise 200 with that row's fields |
| WebhooksApi.Offset | app/api/v1/endpoints/webhooks.py:145 | OFFSET: a negative skip skips nothing, and the offset never passes the end |
| WebhooksApi.Window | app/api/v1/endpoints/webhooks.py:145 | OFFSET then LIMIT: the prefix of the rows after the offset that is min(limit, rows left) long; a negative limit keeps every row left, and a negative offset skips none |
| WebhooksApi.ListedRow | app/api/v1/endpoints/webhooks.py:148-156 | exactly the keys id, event_id, event_type, processed and processing_error, holding the row's key and stored fields |
| WebhooksApi.ListWebhookEvents | app/api/v1/endpoints/webhooks.py:127-178 | 200 with the listed rows, their count, and skip, limit and filters echoed back |
| WebhooksApi.ListingRespectsFilters | app/api/v1/endpoints/webhooks.py:129-145 | listed rows are stored and match both filters, in increasing key order, at most limit of them; with no offset and a limit that is negative or not below the number of matches (the default 100 included), every match |
| Findings.CreateCustomerFreshClient | app/services/database_service.py:19-59 | with a new mock per call, the gateway id is always `cust_mock_1`, refused once a row holds it |
| Findings.CreateOrderFreshClient | app/services/database_service.py:155-193 | with a new mock per call, the gateway id is always `order_mock_1`, refused once a row holds it |
| Findings.SecondCustomerRefusedWithFreshClients | app/services/razorpay_service.py:171-175 | on an empty database, a second customer with a different email is refused |
| Findings.SecondOrderRefusedWithFreshClients | app/services/razorpay_service.py:171-175 | on an empty database, a second order is refused by UNIQUE |
| Findings.SecondCustomerAcceptedWithSharedClient | app/services/database_service.py:23-59 | with one shared client, both customers are stored under distinct ids |
| Findings.SecondOrderAcceptedWithSharedClient | app/services/database_service.py:159-193 | with one shared client, both orders are stored under distinct ids |
| Findings.AuthorizeEMandateAsWritten | app/api/v1/endpoints/emandate.py:38-47 | as written, every request for a known customer answers 500 and none answers 202 |
| Findings.AuthorizationRefusedAsWrittenAcceptedCorrected | app/services/database_service.py:95-101 | one request that is answered 500 as written and 202 once corrected |
| Findings.ProcessEMandateAuthorizationAsWritten | app/tasks/emandate_tasks.py:38 | as written, the run never completes: it retries on the dict's missing `amount` |
| Findings.ProcessRecurringPaymentAsWritten | app/tasks/emandate_tasks.py:86-94 | as written, a mandate that passes the guard still never completes: it retries on the dict's missing `amount` |
| Findings.RecurringPaymentCompletesCorrected | app/tasks/emandate_tasks.py:66-132 | for a CONFIRMED mandate, the as-written run schedules a retry and the corrected one completes |
| Findings.StatusReadBackAsWritten | app/services/database_service.py:139-144 | as written, a sent status is stored as its value and reading it back raises LookupError, for every status |
| Findings.UpdatedStatusReadsBack | app/services/database_service.py:139-144 | corrected, the sent status is written as the column member with the same value, which reads back as itself |
| Findings.TransactionTypeReadBackAsWritten | app/services/database_service.py:198-211 | as written, the transaction type is stored as its value and reading it back raises LookupError, for every type |
| Findings.CreatedPaymentTypeReadsBack | app/services/database_service.py:198-211 | corrected, the type is written as the column member with the same value, which reads back as itself |

## Left out

- Floating point: amounts are exact reals. `float(...)`, the binary rounding of fee and tax after `/ 100`, and the rounding of Numeric(10, 2) columns are not modelled.
- Values.Message: a ValidationError renders as one fixed line naming the first failing field; pydantic's own wording, and its collection of every failing field into one error, are not modelled.
- The live RazorpayClient (HTTP requests, authentication, error statuses) is not modelled. The model covers only the rule that selects it and the refund body it sends.
- HMAC-SHA256 and json.loads are function parameters (`mac`, `parse`). Their algorithms are not modelled, and neither are the exact texts of JSON decoding errors.
- Celery itself is left out: workers, countdowns, serialization of task arguments, and the `retry_kwargs` option, which is not read by `self.retry`. A task id is the task's position in the queue.
- Clocks: the envelope's timestamp is a parameter; created_at, updated_at and processed_at are not part of the rows. processed_at is never written, and the listing's `isoformat` fields are not modelled.
- Logging and the API log table (log_api_request) are not modelled: they change nothing the core reads.
- send_payment_notification and cleanup_expired_orders are not modelled: they only read a row and log.
- The get_mandate_status endpoint and the plain CRUD endpoints under customers, mandates and payments are not part of this model.
- The service functions get_customer_by_email, list_customers, list_customer_mandates, list_customer_payments and get_payment are not part of this model. Lookups by primary key are map membership.
- UTF-8 decoding of the request body: the body is the decoded text.
- Values.PyStr: renders only the scalars that a `created_at` can hold, not floats or containers.
- SQL's coercion of non-string gateway ids in a WHERE clause is not modelled. A truthy non-string entity id matches no row.
- The binding of dict or list values to Text columns is not modelled. `str(notes)` of a dict is a function parameter (`render`), whose rendering is not modelled.
- EmailStr validation is not modelled: an email is any string.
- The response_model filtering of FastAPI is not modelled: the envelope is the dict the endpoint returns.
- Row order without ORDER BY is unspecified in SQL. The model fixes it as increasing primary key.
- The unused `mandates` store of the mock client and the convert_amount helpers are not modelled.
- EMandateApi.AuthorizeEMandate, EMandateTasks.ProcessEMandateAuthorization and EMandateTasks.ProcessRecurringPayment model the intended record semantics: the record each dict describes is built with pydantic's validation and passed on. The code as written hands dicts to services that read attributes; Findings models that separately.
- Database.Store.CreateCustomer, Database.Store.CreateOrder, EMandateTasks.ProcessEMandateAuthorization and EMandateTasks.ProcessRecurringPayment use one gateway client that the store shares across calls, which is the intended behaviour. As written, every service object builds a new mock client; Findings models that separately.
- Database.Store.UpdateMandate and Database.Store.CreatePayment write the Enum column's own member, which is the intended behaviour. As written, they write the schema member's value, which the column cannot read back; Findings models that separately. The exact list of possible values in SQLAlchemy's LookupError text follows its abbreviation rule and is not checked against it.

## Findings

| source | as written | input that shows it | evidently intended | confidence | as-written member | corrected member |
|---|---|---|---|---|---|---|
| app/services/database_service.py:21 | every CustomerService gets a new MockRazorpayClient, so every customer's gateway id is `cust_mock_1`, and the UNIQUE column refuses the second one as "Customer with this email already exists" | on an empty database, create customers asha@example.com and then ravi@example.com | one client shared across calls, so ids keep counting | high, not executed | Findings.SecondCustomerRefusedWithFreshClients | Findings.SecondCustomerAcceptedWithSharedClient |
| app/services/database_service.py:157 | every PaymentService gets a new mock, so every order's gateway id is `order_mock_1`, and the second order fails the UNIQUE constraint | on an empty database, create two orders of 100.00 INR | one client shared across calls | high, not executed | Findings.SecondOrderRefusedWithFreshClients | Findings.SecondOrderAcceptedWithSharedClient |
| app/api/v1/endpoints/emandate.py:47 | create_mandate receives a dict and reads `mandate_data.customer_id`, which raises, so the endpoint answers 500 | an authorization request of 100.00 for an existing customer | build a MandateCreate record (validated) and pass it | high, not executed | Findings.AuthorizeEMandateAsWritten | EMandateApi.AuthorizeEMandate |
| app/tasks/emandate_tasks.py:38 | create_order receives `order_data.dict()` and reads `order_data.amount`, which raises, so the authorization task only retries | the authorization task for any stored mandate | pass an OrderCreate record | high, not executed | Findings.ProcessEMandateAuthorizationAsWritten | EMandateTasks.ProcessEMandateAuthorization |
| app/tasks/emandate_tasks.py:94 | create_order receives a dict, which raises, so no recurring payment is ever recorded | a recurring payment of 100.00 on a CONFIRMED mandate of 500.00 | build OrderCreate and PaymentCreate records (validated) and pass them | high, not executed | Findings.ProcessRecurringPaymentAsWritten | EMandateTasks.ProcessRecurringPayment |
| app/services/database_service.py:141 | setattr writes the schema's status member, a `str` holding the value "confirmed", into an Enum(MandateStatus) column, which stores member names; the value is stored unchecked and the refresh after the commit raises LookupError | update a mandate with status "confirmed" | write the model's member with the same value | medium, not executed; rests on SQLAlchemy's Enum column storing member names | Findings.StatusReadBackAsWritten | Findings.UpdatedStatusReadsBack |
| app/services/database_service.py:203 | the schema's transaction type, a `str` holding "recurring_payment", is written into an Enum(TransactionType) column; the refresh after the commit raises LookupError | create a payment with the default transaction type | write the model's member with the same value | medium, not executed; rests on SQLAlchemy's Enum column storing member names | Findings.TransactionTypeReadBackAsWritten | Findings.CreatedPaymentTypeReadsBack |
