# Staticman subscriptions, notifications and request guards, in Dafny

This project models three sequential parts of a Staticman API server.
Staticman accepts comment submissions from static sites and commits them
to a GitHub or GitLab repository.

- **The subscription registry** (`lib/SubscriptionsManager.js`) holds one
  mailing list per discussion thread. The list's address is
  `md5("<username>-<repository>-<entryId>")@<domain>`. `set` subscribes an
  email address and creates the list on first use. `send` notifies the
  list when it exists.
- **The notification composer** (`lib/Notification.js`) builds the HTML
  body and the subject of a "new reply" email. It makes a single
  `messages.create` call and swallows any failure.
- **The request guards** (`server.js`) check the API version, the hosting
  service and the required parameters. The route table chains these
  guards per route.

Modules and files:

| file | module | what it holds |
|---|---|---|
| `wrappers.dfy` | `Wrappers` | `Option`, standing for a value that may be `undefined` |
| `strings.dfy` | `Strings` | JavaScript truthiness of optional strings (`Truthy`, `Shown`); `includes`/`endsWith`; cancellation lemmas |
| `mail.dfy` | `Mail` | the mail agent (a Mailgun client) as a class: its lists with their members, and a log of every call made to it |
| `notification.dfy` | `Notifications` | the template, the subject rule, and the `Notification` class with its `Send` |
| `subscriptions.dfy` | `Subscriptions` | the list address and the `SubscriptionsManager` class with `Get`, `Send` and `Set` |
| `server.dfy` | `Server` | `requireApiVersion`, `requireService`, `requireParams` (a loop, as in the source), and the route table |

How the model represents things:

- The mail agent is a `Mail.MailAgent` object. `lists` maps each list
  address to its set of members. `calls` records every API call in the
  order it was issued. The methods that change the agent say exactly how
  `lists` and `calls` change.
- `MailAgent.Valid()` says two things. A list that was created still
  exists. No address was ever created twice. `Set` keeps this invariant
  on every call. So across any run of subscriptions there is at most one
  list per thread.
- `md5` is a function-valued constant of the manager. Nothing is assumed
  about it, so every fact about addresses holds for any hash.
- JavaScript truthiness is modelled as `Option<string>`: `undefined` and
  `""` are both falsy. This applies to `siteName`, `origin` and the
  looked-up `list`.
- `config.get('email.fromAddress')` is the `fromAddress` constant of both
  classes.
- `siteConfig.get('name')` is the `name` field of a `SiteConfig` value.
- `objectPath.get(req.query, param) === undefined` means the key is absent
  from the query map.
- The rate limiter (`bruteforce.prevent`) is the first guard of every
  guarded route. Its decision is an input (`admitted`). When it refuses,
  the outcome is `Throttled`.

The specification of this system and the code differ in a few places.
The model follows the code:

- The text describes list creation as idempotent on the provider side.
  The code avoids a second creation only by looking the list up first,
  and the model does the same.
- The text expects distinct threads to get distinct list addresses. The
  code joins the owner, the repository and the entry id with `-` and does
  not escape them. So owner `a-b` with repository `c`, and owner `a` with
  repository `b-c`, hash the same key and share one list.
  `Subscriptions.SharedCompoundKey` exhibits this.

## Model

| member | source | states |
|---|---|---|
| `Notifications.BuildMessage` | lib/Notification.js:11-26 | the body always contains the `%mailing_list_unsubscribe_url%` placeholder, left unsubstituted; it contains ` on <strong>siteName</strong>` when the site name is truthy, and a `Click here` link to `origin` when the origin is truthy |
| `Notifications.TemplateShows` | lib/Notification.js:12-25 | the filled-in template contains the placeholder always, and each conditional clause when its value is truthy |
| `Notifications.SiteClauseInjective` | lib/Notification.js:17 | the site clause is equal for two site names exactly when the shown names are equal (a falsy name gives the empty clause) |
| `Notifications.OriginClauseInjective` | lib/Notification.js:19 | the same for the origin clause |
| `Notifications.BodyDeterminesSiteName` | lib/Notification.js:17 | with the same options, two bodies are equal exactly when the shown site names are equal: the site name appears in the clause exactly when it is truthy, and the clause is otherwise empty |
| `Notifications.BodyDeterminesOrigin` | lib/Notification.js:19 | with the same site data, two bodies are equal exactly when the shown origins are equal: the link appears exactly when the origin is truthy |
| `Notifications.BodyIgnoresFields` | lib/Notification.js:11-26 | equal options and data give equal bodies, whatever the fields |
| `Notifications.Subject` | lib/Notification.js:29 | the subject is `New reply` exactly when the site name is falsy; otherwise it contains the quoted site name |
| `Notifications.SiteNameOfSubject` | lib/Notification.js:29 | reading a site name back from a subject only ever yields a truthy name |
| `Notifications.SubjectRoundTrip` | lib/Notification.js:29 | the name read back from `Subject(data)` is exactly the shown site name: `"<siteName>"` after `New reply on ` when truthy, no name otherwise |
| `Notifications.Notification.constructor` | lib/Notification.js:6-9 | the notification keeps the given mail agent and domain |
| `Notifications.Notification.Send` | lib/Notification.js:28-39 | exactly one `messages.create(domain, {from, to, subject, html})` is issued, with `from` = `Staticman <fromAddress>`, the subject rule, and `html` = `BuildMessage(fields, options, data)`; the lists are untouched and no failure reaches the caller |
| `Mail.MailAgent.ListsGet` | lib/SubscriptionsManager.js:22-23 | a lookup is logged, changes nothing, and its `address` field is the address when the list exists and absent otherwise |
| `Mail.MailAgent.ListsCreate` | lib/SubscriptionsManager.js:42-46 | a creation is logged and adds an empty list if there was none; the invariant survives when the address was new |
| `Mail.MailAgent.ListsCreateMember` | lib/SubscriptionsManager.js:48-50 | adding a member is logged and adds the address to that list's members |
| `Mail.MailAgent.MessagesCreate` | lib/Notification.js:31-36 | a dispatch is logged whatever the transport answers, and the lists are untouched |
| `Subscriptions.SharedCompoundKey` | lib/SubscriptionsManager.js:14 | two different (username, repository) pairs give the same compound key for every entry id |
| `Subscriptions.SubscriptionsManager.constructor` | lib/SubscriptionsManager.js:6-11 | the manager keeps its parameters, mail agent and domain |
| `Subscriptions.SubscriptionsManager.GetListAddress` | lib/SubscriptionsManager.js:13-17 | the address always ends in `"@" + domain`, and what precedes it is exactly `md5("<username>-<repository>-<entryId>")` |
| `Subscriptions.SubscriptionsManager.SameAddressIffSameHash` | lib/SubscriptionsManager.js:13-17 | two entries get the same list address exactly when their compound keys hash to the same value |
| `Subscriptions.SubscriptionsManager.Get` | lib/SubscriptionsManager.js:19-24 | `_get` issues one lookup, of exactly the derived address, and returns that lookup's `address` field: the address if the list exists, nothing otherwise |
| `Subscriptions.SubscriptionsManager.Send` | lib/SubscriptionsManager.js:26-36 | one lookup; then exactly one notification to the found list, with the site name from `siteConfig`, or no dispatch when no list exists; the lists never change |
| `Subscriptions.SubscriptionsManager.Set` | lib/SubscriptionsManager.js:38-51 | a lookup, then a creation only when the lookup found nothing, then adding `email`, always last; afterwards the list exists and holds `email`, every other list and its members are unchanged, and no address has been created twice |
| `Subscriptions.SetTwice` | lib/SubscriptionsManager.js:41-50 | two subscriptions to one thread issue at most one list creation, because the second lookup finds the list |
| `Server.Any` | server.js:135-137 | `xs.some(p)` holds exactly when some element satisfies `p` |
| `Server.NatToString` | server.js:136 | `version.toString()` is never empty, and it is one character long exactly for single digits |
| `Server.NatToStringNoLeadingZero` | server.js:136 | a numeral starts with `0` only when it is `"0"` |
| `Server.NatToStringInjective` | server.js:136 | different numbers have different numerals |
| `Server.RequireApiVersion` | server.js:133-148 | passes exactly when some listed version's numeral equals `req.params.version`; otherwise the answer is 400 `INVALID_VERSION` and `next` is not called |
| `Server.ApiVersionAdmitsListed` | server.js:135-137 | for a version string rendered from a number, the check passes exactly when that number is listed |
| `Server.LeadingZeroRejected` | server.js:136 | the match is on exact strings, so any version with a leading zero, such as `02`, is refused |
| `Server.RequireService` | server.js:150-163 | passes exactly when `req.params.service` is present and listed; otherwise the answer is 400 `INVALID_SERVICE` and `next` is not called |
| `Server.Missing` | server.js:167-176 | the missing parameters are never more than those asked for |
| `Server.RequireParams` | server.js:165-188 | the loop collects exactly `Missing(params, req)`; it passes exactly when every parameter is in the query or the body; otherwise the answer is 500 `MISSING_PARAMS` with `data` equal to the missing list |
| `Server.MissingEmpty` | server.js:178 | nothing is missing exactly when every parameter is present in one of the two sources |
| `Server.MissingMembers` | server.js:169-176 | a parameter is reported exactly when it is asked for and absent from both query and body |
| `Server.MissingCounts` | server.js:169-176 | an absent parameter is reported as many times as it is asked for; a present one never |
| `Server.MissingIsSubsequence` | server.js:169-176 | the missing parameters are a subsequence of those asked for, in their original order |
| `Server.FieldsGuard` | server.js:78 | `requireParams(['fields'])` passes when `fields` is present and otherwise answers `MISSING_PARAMS` with `["fields"]` |
| `Server.ValidServices` | server.js:94 | `requireService(['github', 'gitlab'])` passes exactly for those two services |
| `Server.ReachedIffAllPass` | server.js:64-121 | a route's controller is reached exactly when every guard of the route calls `next` |
| `Server.FirstFailureDecides` | server.js:64-121 | the first guard that does not call `next` fixes the outcome, and no later guard matters |
| `Server.ConnectOutcome` | server.js:66-71 | `connect` admits versions 1 and 2 |
| `Server.EntryOutcome` | server.js:74-80 | `/entry/:username/:repository/:branch` admits versions 1 and 2, then requires `fields` |
| `Server.EntryPropertyOutcome` | server.js:82-88 | `/entry/…/:property` admits version 2 only, then requires `fields` |
| `Server.EntryServiceOutcome` | server.js:90-97 | the `:service` entry route requires version 3, then a service of github or gitlab, then `fields`, in that order |
| `Server.EncryptOutcome` | server.js:100-105 | `encrypt` admits versions 2 and 3 |
| `Server.AuthOutcome` | server.js:108-114 | `auth` admits versions 2 and 3, then requires a service of github or gitlab |
| `Server.HomeOutcome` | server.js:117-120 | the root route has no guards |

## Left out

- Express wiring: the request logger, body parsing, CORS headers, `start`, `close` and the self-pinger (server.js:23-41, 55-62, 190-216). These are I/O and timers with no logic to state.
- Path matching: the model does not decide which route an incoming URL selects. Each route is modelled with the parameters it binds.
- The rate limiter (`ExpressBrute.MemoryStore`, server.js:49-53): its decision is an input of the model. The response it sends is not modelled.
- The webhook handler (server.js:123-131) and the controllers it and the routes call (`connect`, `process`, `handlePR`, `encrypt`, `auth`, `home`): the controllers are not part of this model. Only the routing of `pull_request` events to `handlePR` is visible.
- The hosting client (`lib/GitHub.js`) is not part of this model, and neither is the moderation path. Only tests exercise them, through HTTP mocks.
- `index.js`: process bootstrap.
- `md5` itself: it is an arbitrary function, and collision-freedom is not assumed.
- `objectPath` dotted paths: a parameter name is looked up as a plain key.
- The `dataStore` argument of the manager's constructor: the registry never reads it.
- The mail transport's logging of results (`console.log` / `console.error`).
- Mail agent failures other than a rejected dispatch. In the model, a lookup of a missing list resolves with no address, creating a member that already exists is a no-op, and `lists.create` and `createMember` do not fail. A rejection from any of these would propagate out of `set`; the model does not capture that.
- Promise timing and concurrency: each `await` or `.then` chain is modelled as steps run in sequence. Two concurrent `set` calls for a new thread, both missing in the lookup, are therefore not modelled.
