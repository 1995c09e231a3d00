# Webhook intake and role redirects of a SaaS starter, in Dafny

This project models the two server-side glue files of a Next.js SaaS starter:

- **The webhook endpoint** `POST /api/webhook/register`
  (`app/api/webhook/register/route.ts`). It receives a signed event from the
  identity provider (Clerk, signed with Svix). It checks the configured
  secret, then the three `svix-*` headers, then the signature. It dispatches on
  the event type. For `"user.created"` it picks the primary email address and
  creates one row `{id, email, isSubscribed = false}` in the user table.
  Every modelled branch ends in exactly one response, except that a missing
  secret raises an error out of the handler (modelled as `Raised`). A body
  that is not valid JSON (route.ts:21) and an event without `data`
  (route.ts:40) also raise out of the handler; those cases are not modelled.
- **The redirect policy** `afterAuth` (`middleware.ts`). From the sign-in
  state, the looked-up role and the request path, it decides "no redirect" or
  one of `/sign-in`, `/dashboard`, `/admin/dashboard`, `/error`.

The collaborators are inputs:

- the `WEBHOOK_SECRET` environment value is an `Option<string>`;
- each `svix-*` header is an `Option<string>`;
- the signature library's verdict is an `Option<Event>`: `None` stands for `verify` throwing;
- the identity provider's `getUser` is a `Lookup`: `LookupFailed`, or `LookupSucceeded(role)`;
- the ORM's user table is the class `Webhook.UserTable`. Its `users` field is a
  `map<string, User>` that `Create` updates in place.

`Create` fails exactly when the id is already in the table. That is an
ASSUMPTION about the database (a uniqueness constraint on the user id), not
something the handler checks. Every property below about duplicate deliveries
rests on it.

Files:

- `wrappers.dfy`: `Option`.
- `webhook.dfy`: module `Webhook`. It holds:
  - the event and user datatypes;
  - the first-match email search;
  - the user table class;
  - the pure handler `Handle`, the method `Post` proved to agree with it, and
    the per-branch lemmas.
- `middleware.dfy`: module `Middleware`. It holds the public-route list, the
  pure `AfterAuth` and its lemmas.

Three details of the code are kept exactly as written:

- When `WEBHOOK_SECRET` is missing or empty, the handler throws inside each
  request (route.ts:8-9). This is modelled as the outcome `Raised`.
- When a signature header is missing or empty, the answer carries no status
  and so gets the default 200 (route.ts:18).
- The response text "Webhook recieved Successfully" (route.ts:74) is kept as
  spelled.

## Model

| member | source | states |
|---|---|---|
| `Webhook.FindPrimaryEmail` | app/api/webhook/register/route.ts:49-51 | a found entry is in the list and has the primary id; the result is None exactly when no entry has that id |
| `Webhook.FindPrimaryEmailIsFirst` | app/api/webhook/register/route.ts:49-51 | the entry chosen is the one at the least index whose id matches |
| `Webhook.FindPrimaryEmailIgnoresLater` | app/api/webhook/register/route.ts:49-51 | once a match exists, appending entries (even ones with the same id) does not change the entry chosen |
| `Webhook.Insert` | app/api/webhook/register/route.ts:57-63 | create fails exactly when the id is already present (assumed uniqueness); on success the keys grow by exactly that id, the new row is the one given, and every old row is kept |
| `Webhook.UserTable.Create` | app/api/webhook/register/route.ts:57-63 | the in-place create returns the row and sets the table to the insert's result when the id is new; otherwise it returns None and leaves the table unchanged |
| `Webhook.Handle` | app/api/webhook/register/route.ts:6-75 | the handler never removes or changes an existing row; the table changes exactly when the answer is "User created successfully", and then by exactly one row |
| `Webhook.Post` | app/api/webhook/register/route.ts:6-75 | the chain of early returns yields the outcome and the new table given by `Handle`; on every other answer the table is unchanged |
| `Webhook.MissingSecretRaises` | app/api/webhook/register/route.ts:7-10 | an absent or empty secret raises "Missing WEBHOOK_SECRET environment variable", whatever the headers and the verdict, with the table unchanged |
| `Webhook.MissingHeadersAnswered` | app/api/webhook/register/route.ts:12-19 | any missing or empty `svix-*` header answers 200 "Error occurred: No SVIX HEADERS found" whatever the verifier would say, with the table unchanged |
| `Webhook.VerificationFailureAnswered` | app/api/webhook/register/route.ts:28-38 | a failed verification answers 404 "Error occurred: Failed to verify webhook" with the table unchanged |
| `Webhook.OtherEventAcknowledged` | app/api/webhook/register/route.ts:43-74 | a verified event of any type other than "user.created" answers 200 "Webhook recieved Successfully" with the table unchanged |
| `Webhook.NoPrimaryEmailRejected` | app/api/webhook/register/route.ts:49-55 | when no entry matches the primary id, the answer is 400 "No primary email found" and no insert happens |
| `Webhook.UserProvisioned` | app/api/webhook/register/route.ts:45-68 | for a new id, the answer is 200 "User created successfully" and the table gains exactly the row {event id, first matching address, isSubscribed = false} |
| `Webhook.DuplicateUserRejected` | app/api/webhook/register/route.ts:57-71 | for an id already in the table, the answer is 400 "Error creating user" with the table unchanged |
| `Webhook.RedeliveryRejected` | app/api/webhook/register/route.ts:57-71 | delivering the same "user.created" event twice (the second time with its own valid secret and headers) answers "User created successfully" and then "Error creating user"; the table holds the one new id after both |
| `Middleware.AfterAuth` | middleware.ts:8-39 | every redirect goes to one of `/sign-in`, `/dashboard`, `/admin/dashboard`, `/error` |
| `Middleware.PublicRoutesExact` | middleware.ts:4 | a path is public exactly when it equals one of "/", "/api/webhook/register", "/sign-up", "/sign-in" |
| `Middleware.UnauthenticatedRedirect` | middleware.ts:10-11 | without a signed-in user, a non-public path redirects to `/sign-in` and a public path is not redirected, whatever the lookup |
| `Middleware.LookupFailureRedirectsToError` | middleware.ts:13-37 | a signed-in user whose lookup fails is redirected to `/error` from any path |
| `Middleware.AdminDashboardRedirect` | middleware.ts:19-21 | an admin on exactly `/dashboard` is redirected to `/admin/dashboard` |
| `Middleware.NonAdminKeptOutOfAdmin` | middleware.ts:24-26 | a signed-in user whose role is not "admin" (no role included) on any path starting with `/admin` is redirected to `/dashboard` |
| `Middleware.SignedInLeavesPublicRoute` | middleware.ts:29-33 | a signed-in user on a public route is redirected to `/admin/dashboard` if an admin, else to `/dashboard` |
| `Middleware.NoRuleNoRedirect` | middleware.ts:13-39 | after a successful lookup, there is no redirect exactly when none of the three rules applies |
| `Middleware.RulesAreExclusive` | middleware.ts:19-33 | no public route is `/dashboard` or starts with `/admin`, so the role rules never overlap |
| `Middleware.RuleOrderIrrelevant` | middleware.ts:19-33 | for a signed-in user, trying the three role rules in the reverse order gives the same decision for every role and path |
| `Middleware.ErrorPageRedirectsToItself` | middleware.ts:13-37 | a signed-in user whose lookup fails on `/error` is redirected to `/error` again |
| `Middleware.RedirectSettles` | middleware.ts:10-33 | with the sign-in state and a successful lookup fixed, the target is never the current path, the target is not redirected again, and a non-admin is never sent under `/admin` |

## Left out

- Svix signature verification is left out: the HMAC, the timestamp tolerance and replay protection. It is a foreign library, modelled only as its verdict `Option<Event>`.
- The JSON parse and re-serialisation of the body before verification is left out. It is library behaviour, and the model works on already-parsed events. A body that fails to parse (route.ts:21) throws out of the handler, outside any `try`; that outcome is not modelled.
- The error thrown for a missing secret is modelled as `Raised(message)`. The status the framework then sends is not modelled.
- Database internals and connectivity are left out. `Create` fails only on an id already present. A create that throws for other reasons (a lost connection) would give the same 400 answer, but that case is not modelled.
- The `if (newUser)` fall-through after a create is not modelled. A successful create always yields a row.
- An event payload with missing fields is not modelled: every modelled `Event` carries all its fields. In the source, a missing `data` throws outside any `try` (route.ts:40); a missing `type` gets 200 "Webhook recieved Successfully"; a missing `primary_email_address_id` gets 400 "No primary email found"; a missing `email_addresses` or `email_address` throws inside the `try` and gets 400 "Error creating user".
- Logging (`console.log`, `console.error`), `async`/`await`, and building `NextResponse` and `URL` objects are left out. Redirect targets are path strings.
- The `config.matcher` patterns in `middleware.ts` are left out. The Next.js router uses them; they play no part in the decision.
- Middleware.RedirectSettles excludes the `/error` redirect. A signed-in user whose lookup keeps failing is sent from `/error` to `/error` again (`Middleware.ErrorPageRedirectsToItself`); the route matcher covers `/error`, so the source as written can loop there. The model keeps that behaviour.
