# Repair notification service — a Dafny model

This project models the server side of a repair-ticket application. Customers report
broken devices, and staff follow the repairs on a Monday.com board. Customers are told
about changes through LINE, a messaging app. The model covers:

- **Ticket creation.** Tickets come from a signed-in web form (`/api/tickets`) and from
  Google Forms submissions (`/api/webhooks/google-forms`). The web form needs a session
  and an existing device; it writes the ticket and its first status-history entry and
  nothing else. A Google Forms submission finds or creates the submitter, a placeholder
  device and its catalogue rows. It writes the ticket and its first status-history
  entry, pushes a LINE notice, and may record the Monday.com item id.
- **The ticket listing.** Signed-in users list tickets with paging, role-based
  visibility, enum filters and a case-insensitive search.
- **Accounts and LINE ids.** Users register with e-mail and password. They attach a
  LINE id to their account through the link-line API, the Google sign-in callback or a
  `/link` chat command. The LINE id can also travel through URL parameters and browser
  storage.
- **The two webhooks.** The Monday.com webhook mirrors a board status change into the
  ticket, its history and a LINE notice. The LINE webhook answers chat commands: it
  links accounts, lists the five latest tickets, and sends the repair-form link or help.
- **The helper libraries.** Phone and e-mail validation and formatting, LINE message
  building, and the Monday.com service's label tables and stubs.
- **The Monday.com connection test.** It describes the board's columns.

## How the model is organised

`store.dfy` holds the database as one value (`Store.Tables`) of users, companies,
brands, models, devices, tickets, status history, the LINE pushes sent (`outbox`), the
next free id and a clock for `createdAt`. `Store.Database` is a class holding the same
fields. Its methods are the individual database writes the routes perform.

`Store.Consistent` is the invariant the tables keep:
- e-mails, LINE ids and user ids are unique;
- ids are below the next free id;
- tickets are stored in creation order;
- catalogue ids increase along each table.

Each route is modelled twice:
- as a function from the tables before the request to an `Outcome` (the tables after,
  and the answer). The answer is `Response.Fail(status)` or `Response.Ok(body)`;
- as a method on a `Database` that performs the writes one at a time. The method's
  postcondition says it ends in exactly the state and answer the function gives.

A `...KeepsConsistent` lemma shows each route that writes preserves `Store.Consistent`
(for the link-line DELETE, `LinkLine.UnlinkKeepsConsistent`). Further
lemmas relate routes to one another. Examples:
- a ticket just created heads its owner's first page;
- after linking, the status query reports the link;
- a repeated Google Forms submission reuses the account and device.

Conventions:
- Record ids, which the application generates, are natural numbers drawn from a counter.
- An optional JavaScript string is an `Option<string>`. "Truthy" means present and
  non-empty.
- The database's unique indexes on `email` and `lineUserId` are enforced on every
  write. A write that would break one throws. In the HTTP routes the `catch` then
  answers 500. In the LINE webhook's `/link` handler the `catch` instead pushes the
  link error notice, and the webhook still answers 200.
- A Prisma filter field that is `undefined` does not filter.
- The LINE webhook's own client throws when LINE refuses a push; there a handler's `catch` pushes an error notice. The notification library (`src/lib/line-notifications.ts`) does not throw: a refused push or a failed fetch gives `false`. A throw that leaves the handler answers 500 and skips the remaining events; this includes the help command, which has no `catch`. Writes made before the throw stay.

The outcomes of calls to other services are parameters:
- whether LINE accepts a push. For the LINE webhook this is a `Delivery` per event: the handler's reply, and the error notice its `catch` block sends.
- the Monday.com item id;
- the HMAC digest of a request body;
- the formatted date text;
- whether `new URL` accepts a string;
- what the board-column query returns.

`Common` holds the JavaScript string operations the routes use: trimming with
ECMAScript whitespace, `includes`, `indexOf`, `replace` with a string pattern, `split`,
`padStart` and decimal `toString`.

## Model

| member | source | states |
|---|---|---|
| Common.TrimStart | src/app/api/tickets/route-new.ts:15-16 | the result is a suffix of the input that starts with no whitespace, and only whitespace was dropped |
| Common.TrimEnd | src/app/api/webhooks/line/route.ts:39 | the result is a prefix of the input that ends with no whitespace, and only whitespace was dropped |
| Common.Trim | src/app/api/webhooks/line/route.ts:39 | `trim` leaves no whitespace at either end and never lengthens the text |
| Common.TrimUntouched | src/app/api/webhooks/line/route.ts:39 | trimming text without whitespace at its ends changes nothing |
| Common.NatToString | src/app/api/webhooks/google-forms/route.ts:114 | `toString` of a natural gives decimal digits without leading zeros that parse back to the number |
| Common.PadStart | src/app/api/webhooks/google-forms/route.ts:114 | `padStart(w, c)` keeps the text as a suffix and fills with `c` up to width `w` |
| Common.ContainsPrefixOfNeedle | src/app/api/monday/test-token/route.ts:35 | a string containing `p + q` contains `p` |
| Store.Database.SetLineUserId | src/app/api/auth/google-callback/route.ts:32-35 | the write succeeds exactly when no other user holds the LINE id; it changes only that user's LINE id, and nothing on failure |
| Store.Database.SetUser | src/app/api/user/link-line/route.ts:41-53 | replaces one user row, keeping its id and e-mail, under a free LINE id; nothing else changes |
| Store.Database.CreateUser | src/app/api/auth/register/route.ts:63-71 | an insert succeeds exactly when the e-mail and LINE id are free, and then appends the row under a fresh id |
| Store.Database.InsertUser | src/app/api/webhooks/google-forms/route.ts:43-50 | an insert of a user with a free e-mail appends the row under the next id |
| Store.Database.CreateCompany | src/app/api/webhooks/google-forms/route.ts:67-69 | appends a company with a fresh id |
| Store.Database.CreateBrand | src/app/api/webhooks/google-forms/route.ts:80-85 | appends a brand of the given company with a fresh id |
| Store.Database.CreateModel | src/app/api/webhooks/google-forms/route.ts:96-101 | appends a model of the given brand with a fresh id |
| Store.Database.CreateDevice | src/app/api/webhooks/google-forms/route.ts:104-109 | appends a device with a fresh id |
| Store.Database.CreateTicket | src/app/api/tickets/route-new.ts:145-173 | the insert fails exactly for a priority outside LOW, MEDIUM, HIGH, URGENT; otherwise it appends the ticket with a fresh id and the current time |
| Store.Database.AppendHistory | src/app/api/tickets/route-new.ts:176-182 | appends one status-history entry and changes nothing else |
| Store.Database.SetTicketStatus | src/app/api/webhooks/monday/route.ts:75-78 | only that ticket's status changes |
| Store.Database.SetMondayTicketId | src/app/api/webhooks/google-forms/route.ts:192-195 | only that ticket's Monday.com id changes |
| Store.Database.Send | src/app/api/auth/register/route.ts:76-79 | a LINE push is appended to the outbox; no table changes |
| Store.OwnerLineId | src/app/api/webhooks/monday/route.ts:91 | a returned LINE id is non-empty and belongs to the ticket owner's row |
| Store.UpdateUserKeepsConsistent | src/app/api/user/link-line/route.ts:41-53 | rewriting a user row without changing id or e-mail, under a LINE id no other user holds, keeps the tables consistent |
| Store.AddUserKeepsConsistent | src/app/api/auth/register/route.ts:63-71 | inserting a user with a free e-mail and LINE id keeps the tables consistent |
| Store.AddDeviceKeepsConsistent | src/app/api/webhooks/google-forms/route.ts:104-109 | appending a device with the next id keeps the tables consistent |
| Store.AddTicketKeepsConsistent | src/app/api/webhooks/google-forms/route.ts:117-146 | storing a ticket under the next id and the current time keeps the tables consistent |
| Store.RetouchTicketsKeepsConsistent | src/app/api/webhooks/monday/route.ts:75-78 | rewriting tickets while keeping their ids and creation times keeps the tables consistent |
| Store.OutboxKeepsConsistent | src/lib/line.ts:39 | pushing LINE messages keeps the tables consistent |
| Store.SetLineIdKeepsUnique | src/app/api/auth/google-callback/route.ts:32-35 | writing a LINE id held by no other row keeps LINE ids unique |
| Utils.DigitsOf | src/lib/utils.ts:18 | `replace(/\D/g, "")` keeps only digits and never lengthens the text |
| Utils.DigitsOfAppend | src/lib/utils.ts:18 | removing non-digits distributes over concatenation |
| Utils.DigitsOfDigits | src/lib/utils.ts:18 | removing non-digits from digits changes nothing |
| Utils.FormatPhoneNumber | src/lib/utils.ts:16-28 | with exactly ten digits the result is laid out as `(XXX) XXX-XXXX` with the same digits; otherwise the input comes back unchanged |
| Utils.LayoutCarriesDigits | src/lib/utils.ts:21-25 | ten digits laid out as `(XXX) XXX-XXXX` keep the layout and give back the same digits |
| Utils.FormatPhoneNumberIdempotent | src/lib/utils.ts:16-28 | formatting a formatted number changes nothing |
| Utils.ValidateEmail | src/lib/utils.ts:30-33 | a valid address has no whitespace, is non-empty and does not start with `@` |
| Utils.EmailPatternCharacterised | src/lib/utils.ts:31 | the validator accepts exactly the strings `local@domain.tld` whose three parts are non-empty and free of whitespace and `@` |
| Utils.ValidEmailMatches | src/lib/utils.ts:31 | every accepted address splits into the three parts of the pattern |
| Utils.EmailSplitValid | src/lib/utils.ts:31 | every string built from three such parts is accepted |
| Utils.ValidatePhone | src/lib/utils.ts:35-38 | as written: an optional `+`, then 10 to 15 characters from digits, `-`, `(`, `)` and the letter `s` |
| Utils.PhoneClassTakesLetterS | src/lib/utils.ts:36 | as written, "ssssssssss" is accepted and "081 234 5678" is rejected |
| Utils.ValidatePhoneIntended | src/lib/utils.ts:36 | corrected: an optional `+`, then 10 to 15 characters from digits, `-`, `(`, `)` and whitespace |
| Utils.PhoneIntendedAcceptsSpaces | src/lib/utils.ts:36 | the corrected check accepts "081 234 5678", rejects "ssssssssss", and agrees with the written one on inputs without whitespace or `s` |
| MondayService.StatusNamed | src/lib/monday.ts:60-69 | a status name maps to the status with that name, and to none when no status has it |
| MondayService.MapStatusToMonday | src/lib/monday.ts:60-69 | always a board label; "รอดำเนินการ" exactly when the status is not one of the four other keys |
| MondayService.MapPriorityToMonday | src/lib/monday.ts:71-79 | always a board priority label; "ปานกลาง" exactly when the priority is not LOW, HIGH or URGENT |
| MondayService.MapMondayStatusToPrisma | src/lib/monday.ts:81-90 | always a status name; an unknown label gives PENDING |
| MondayService.StatusRoundTrip | src/lib/monday.ts:60-90 | mapping a status to its board label and back gives the status |
| MondayService.LabelRoundTrip | src/lib/monday.ts:60-90 | mapping a board label to a status and back gives the label |
| MondayService.StatusLabelsDistinct | src/lib/monday.ts:60-69 | distinct statuses get distinct board labels |
| MondayService.ParseWebhookPayload | src/lib/monday.ts:49-58 | every field is read from `event`, and all are absent without one |
| MondayService.CreateTicket | src/lib/monday.ts:13-27 | never yields an item id; it logs the missing configuration exactly when the token or board id is unset |
| MondayService.UpdateTicketStatus | src/lib/monday.ts:29-47 | reports success exactly when the API token is set |
| LineNotifications.HexRun | src/lib/line-notifications.ts:118 | exactly `n` hexadecimal digits in either case |
| LineNotifications.IsValidLineUserId | src/lib/line-notifications.ts:116-120 | exactly `U` or `u` followed by 32 hexadecimal digits in either case |
| LineNotifications.GetStatusEmoji | src/lib/line-notifications.ts:168-179 | one of the table's emoji; the fallback exactly for an unknown status |
| LineNotifications.GetPriorityEmoji | src/lib/line-notifications.ts:184-193 | one of the table's emoji; the white circle exactly when no known priority is given |
| LineNotifications.MakePushBody | src/lib/line-notifications.ts:30-38 | one text message to the given recipient carrying the given text |
| LineNotifications.SendLineNotificationToUser | src/lib/line-notifications.ts:18-61 | nothing is sent without an access token; otherwise the push body goes out, and delivery is reported exactly when the token is set and the response is ok |
| LineNotifications.SendLineGroupNotification | src/lib/line-notifications.ts:66-111 | nothing is sent without a token and a group id; otherwise the message goes to the group |
| LineNotifications.RepairMessageLines | src/lib/line-notifications.ts:144-156 | nine lines: the status emoji first, a priority line exactly for a truthy priority, a description line exactly for a truthy description, and the time last |
| LineNotifications.SendRepairTicketNotification | src/lib/line-notifications.ts:125-163 | a malformed LINE id sends nothing; the repair message is sent exactly when the id is valid and a token is set |
| AuthUtils.IsValidLineUid | src/lib/auth-utils.ts:62-66 | the same language as the LINE user-id check |
| AuthUtils.QueryOf | src/lib/auth-utils.ts:10-11 | the query part of a URL never contains the fragment |
| AuthUtils.ParamValue | src/lib/auth-utils.ts:11 | a parameter's value is a suffix of its `name=value` pair |
| AuthUtils.PlusToSpace | src/lib/auth-utils.ts:11 | the form-urlencoded reading of a value: same length, every `+` becomes a space, every other character stays, and no `+` is left |
| AuthUtils.SearchParam | src/lib/auth-utils.ts:11 | the still encoded value of the first pair with the name: it holds no `&` and consists of characters of the query |
| AuthUtils.SearchParamSingle | src/lib/auth-utils.ts:11 | a query made of the one pair `name=v` gives back `v` for `name` |
| AuthUtils.QueryOfBuilt | src/lib/auth-utils.ts:10 | the query of `base?q` is `q` when neither part holds a `#` and `base` holds no `?` |
| Common.SplitPieces | src/lib/auth-utils.ts:11 | every piece of `s.split(sep)` holds no separator and only characters of `s` |
| AuthUtils.StripLeading | src/lib/auth-utils.ts:10 | the parser's leading trim: a suffix of the input that starts with neither a C0 control nor a space |
| AuthUtils.StripLeadingRemovesBlanks | src/lib/auth-utils.ts:10 | every character the leading trim removes is a C0 control or a space |
| AuthUtils.StripTrailing | src/lib/auth-utils.ts:10 | the parser's trailing trim: a prefix of the input that ends with neither a C0 control nor a space |
| AuthUtils.StripTrailingRemovesBlanks | src/lib/auth-utils.ts:10 | every character the trailing trim removes is a C0 control or a space |
| AuthUtils.RemoveTabsAndNewlines | src/lib/auth-utils.ts:10 | the parser's removal of tabs and newlines leaves none of them |
| AuthUtils.ParserInput | src/lib/auth-utils.ts:10 | what `new URL` parses holds no tab or newline and neither starts nor ends with a C0 control or a space |
| AuthUtils.ExtractLineUidFromUrl | src/lib/auth-utils.ts:8-16 | an unparsable URL gives null; a found id comes from the query of the cleaned URL, is `+`-decoded, and holds no `&`, `#` or `+` |
| AuthUtils.LineUidFromAnyBuiltUrl | src/lib/auth-utils.ts:8-16 | for any `base?lineUid=v` whose `base` holds no `?` or `#` and whose `v` holds no `&` or `#`, the id read back is `v` without trailing controls and spaces, without tabs and newlines, and with each `+` read as a space |
| AuthUtils.LineUidFromBuiltUrl | src/lib/auth-utils.ts:8-16 | the id read back is exactly `v` when `v` holds no `+`, `%`, tab or newline and does not end in a control or a space |
| AuthUtils.PlusReadAsSpace | src/lib/auth-utils.ts:11 | `x+y` in the URL comes back as `x y` |
| AuthUtils.TrailingSpaceDropped | src/lib/auth-utils.ts:10 | a value followed by a space comes back without the space |
| AuthUtils.ExtractLineUidFromRequest | src/lib/auth-utils.ts:21-43 | a truthy header wins; else the referer's id; else null; never an empty id |
| AuthUtils.GetItem | src/lib/auth-utils.ts:88-89 | a stored value is returned exactly when it is present and non-empty |
| AuthUtils.BrowserStorage.constructor | src/lib/auth-utils.ts:72 | both storages start empty |
| AuthUtils.BrowserStorage.StoreLineUidInSession | src/lib/auth-utils.ts:71-80 | in a browser the session key is set to the id; outside one nothing changes |
| AuthUtils.BrowserStorage.RetrieveLineUidFromSession | src/lib/auth-utils.ts:85-99 | returns a truthy stored id and removes it; otherwise nothing changes |
| AuthUtils.BrowserStorage.StoreLineUidInLocalStorage | src/lib/auth-utils.ts:104-113 | in a browser the local key is set to the id |
| AuthUtils.BrowserStorage.RetrieveLineUidFromLocalStorage | src/lib/auth-utils.ts:118-131 | returns a truthy stored id without removing it |
| AuthUtils.BrowserStorage.ClearLineUidFromLocalStorage | src/lib/auth-utils.ts:136-145 | in a browser the local key is removed |
| AuthUtils.SessionRetrieveIsOneShot | src/lib/auth-utils.ts:85-99 | a second retrieval from the session finds nothing |
| AuthUtils.LocalStorageRoundTrip | src/lib/auth-utils.ts:104-145 | a stored id is read back on every retrieval until cleared, then not at all |
| AuthUtils.SessionStorageRoundTrip | src/lib/auth-utils.ts:71-99 | a stored id is read back once and the key is gone afterwards |
| MondayWebhook.MapMondayStatusToTicketStatus | src/app/api/webhooks/monday/route.ts:161-173 | a status is returned exactly for its English board label, and null for anything else |
| MondayWebhook.EnglishLabelRoundTrip | src/app/api/webhooks/monday/route.ts:161-173 | every status's English label maps back to it; lower-case or Thai labels map to nothing |
| MondayWebhook.StatusEmoji | src/app/api/webhooks/monday/route.ts:139-148 | the hourglass exactly when the status is not one of the four other keys |
| MondayWebhook.StatusText | src/app/api/webhooks/monday/route.ts:150-159 | "รอดำเนินการ" exactly when the status is not one of the four other keys |
| MondayWebhook.StatusDisplayDistinct | src/app/api/webhooks/monday/route.ts:139-159 | distinct statuses get distinct emoji and texts |
| MondayWebhook.VerifyMondaySignature | src/app/api/webhooks/monday/route.ts:175-195 | accepted exactly when no secret is set or a truthy signature is given |
| MondayWebhook.PlannedUpdate | src/app/api/webhooks/monday/route.ts:42-73 | the first ticket with the item id, when the label names a status other than its current one |
| MondayWebhook.ApplyPlan | src/app/api/webhooks/monday/route.ts:74-77 | the planned ticket gets the new status; every other ticket, and every other field of that ticket, stays |
| MondayWebhook.StatusChange | src/app/api/webhooks/monday/route.ts:39-111 | without a plan nothing changes; otherwise the first matching ticket's status, one history entry and a LINE notice to a linked owner change, and nothing else |
| MondayWebhook.StatusChangeKeepsConsistent | src/app/api/webhooks/monday/route.ts:75-88 | a status change keeps the tables consistent |
| MondayWebhook.RepeatedEventChangesNothing | src/app/api/webhooks/monday/route.ts:73 | delivering the same event twice changes nothing the second time |
| MondayWebhook.OnlyFirstMatchChanges | src/app/api/webhooks/monday/route.ts:67-78 | every ticket other than the first match is unchanged |
| MondayWebhook.HandleStatusChange | src/app/api/webhooks/monday/route.ts:39-111 | the database ends as the status change prescribes |
| MondayWebhook.PostOutcome | src/app/api/webhooks/monday/route.ts:7-37 | 401 exactly on a rejected signature, and then no change; only status-change events change anything; an accepted status-change event ends as the status change prescribes, answered 200 exactly when its handling succeeds and 500 otherwise |
| MondayWebhook.Post | src/app/api/webhooks/monday/route.ts:7-37 | the database and status code are those the outcome prescribes |
| LineWebhook.ClassifyText | src/app/api/webhooks/line/route.ts:37-50 | each command exactly for its trimmed words: `/link ` prefix, help, status, repair |
| LineWebhook.ClassifyEvent | src/app/api/webhooks/line/route.ts:34-52 | among the events the model represents, the handler throws exactly for a message event without a message; other events carry no command |
| LineWebhook.LinkEmailOfCommand | src/app/api/webhooks/line/route.ts:57 | the e-mail of a `/link` command is the trimmed rest after the command word |
| LineWebhook.IsValidEmailPattern | src/app/api/webhooks/line/route.ts:237-240 | `isValidEmail` accepts exactly the strings of the e-mail pattern: one '@' with text before it, a '.' inside the domain, no whitespace |
| LineWebhook.TryPush | src/app/api/webhooks/line/route.ts:55-96 | a `try` ending in a push with a `catch` that pushes a notice: the reply when LINE accepts it, else the notice when LINE accepts that; it throws exactly when neither goes out, and then pushes nothing |
| LineWebhook.Deliver | src/lib/line.ts:35-43 | a push LINE accepts adds exactly one push, to the recipient and with the message, to the outbox; a refused one throws and changes nothing |
| LineWebhook.DeliverIn | src/lib/line.ts:35-43 | the database ends as the push prescribes: recorded when accepted, nothing when refused |
| LineWebhook.TryPushOnce | src/app/api/webhooks/line/route.ts:55-96 | a `try`/`catch` push sends exactly one push to the sender unless it throws, and then none |
| LineWebhook.TryPushIn | src/app/api/webhooks/line/route.ts:55-96 | the database ends as the `try`/`catch` push prescribes |
| LineWebhook.LinkAccount | src/app/api/webhooks/line/route.ts:54-97 | account linking changes only users and the outbox |
| LineWebhook.LinkRow | src/app/api/webhooks/line/route.ts:80-97 | only users and the outbox change; the users stay as they were or only the registered row gets the sender's LINE id; at most one push is added |
| LineWebhook.LinkAccountReply | src/app/api/webhooks/line/route.ts:54-97 | the `try` block's reply is the format hint for an invalid e-mail, the not-found text for an unregistered one, the linked text exactly when the row is written, and none when the write throws; it goes out when LINE accepts it, otherwise the error notice does when accepted; the handler throws exactly when neither goes out |
| LineWebhook.LinkAccountWrite | src/app/api/webhooks/line/route.ts:59-84 | the sender's LINE id is written into the e-mail's row exactly when the e-mail is valid and registered and no other row holds the id, whatever LINE does with the pushes; otherwise no user changes |
| LineWebhook.LinkedButToldFailed | src/app/api/webhooks/line/route.ts:81-95 | when the linked reply is refused, the row stays linked while the sender gets the error notice |
| LineWebhook.LinkRowIn | src/app/api/webhooks/line/route.ts:80-96 | the database ends as the write followed by the reply or the notice prescribes |
| LineWebhook.HandleLinkAccount | src/app/api/webhooks/line/route.ts:54-97 | the database ends as account linking prescribes |
| LineWebhook.RepairFormReplyFor | src/app/api/webhooks/line/route.ts:99-136 | the not-linked reply exactly when no user has the LINE id; otherwise the form link greeting the user's name or "คุณ" |
| LineWebhook.RecentOf | src/app/api/webhooks/line/route.ts:171-190 | at most `n` tickets, all the user's own |
| LineWebhook.TicketsOf | src/app/api/webhooks/line/route.ts:171-172 | as many tickets as the user has |
| LineWebhook.RecentOfIsNewest | src/app/api/webhooks/line/route.ts:171-190 | the listing is the newest end of the user's tickets: entry `k` is the user's `k`-th ticket from the last stored, and there are `min(n, count)` of them |
| LineWebhook.RecentOfSize | src/app/api/webhooks/line/route.ts:188-189 | exactly `min(n, number of the user's tickets)` tickets |
| LineWebhook.RecentOfNewestFirst | src/app/api/webhooks/line/route.ts:188 | tickets stored in creation order are listed newest first |
| LineWebhook.Entry | src/app/api/webhooks/line/route.ts:204-211 | a ticket's block starts with its number and title |
| LineWebhook.EntriesPrefix | src/app/api/webhooks/line/route.ts:200-212 | the text for a prefix of the tickets begins the text for all of them |
| LineWebhook.EntriesSnoc | src/app/api/webhooks/line/route.ts:200-212 | one more ticket appends exactly its block |
| LineWebhook.EntriesNumbered | src/app/api/webhooks/line/route.ts:204 | ticket `k` appears in the listing as "k+1. title" |
| LineWebhook.BuildStatusText | src/app/api/webhooks/line/route.ts:197-212 | the loop builds the header followed by every ticket's block in order |
| LineWebhook.StatusReply | src/app/api/webhooks/line/route.ts:155-214 | the not-linked reply exactly for an unknown LINE id; for a linked user, no-tickets exactly when they have none, and otherwise the header followed by the blocks of their latest five tickets |
| LineWebhook.SendUserTicketStatus | src/app/api/webhooks/line/route.ts:155-222 | the database ends as pushing the status reply, or on refusal the error notice, prescribes; false exactly when both are refused |
| LineWebhook.EventEffect | src/app/api/webhooks/line/route.ts:34-52 | a message event without a message throws and changes nothing; any other event runs the command its trimmed text carries |
| LineWebhook.RunCommand | src/app/api/webhooks/line/route.ts:37-51 | a non-command changes nothing; help throws exactly when its push is refused (it has no `catch`); /status and /repair change only the outbox and throw exactly when both the reply and the notice are refused; only /link changes users |
| LineWebhook.HandleEvents | src/app/api/webhooks/line/route.ts:19-21 | the event loop changes only users and the outbox; the outbox only grows, by at most one push per event |
| LineWebhook.CommandPushesOnce | src/app/api/webhooks/line/route.ts:34-52 | a command sends the sender exactly one push unless its handler throws, and then none |
| LineWebhook.HandleEventsStopsAtFailure | src/app/api/webhooks/line/route.ts:18-20 | once an event throws, later events are not handled |
| LineWebhook.TryPushKeepsConsistent | src/app/api/webhooks/line/route.ts:55-96 | a push keeps the tables consistent |
| LineWebhook.EventEffectKeepsConsistent | src/app/api/webhooks/line/route.ts:34-52 | every event, thrown or not, keeps the tables consistent |
| LineWebhook.LinkAccountKeepsConsistent | src/app/api/webhooks/line/route.ts:80-84 | linking keeps LINE ids unique and the tables consistent |
| LineWebhook.HandleEventsKeepsConsistent | src/app/api/webhooks/line/route.ts:18-20 | the events of a request, however far they get, keep the tables consistent |
| LineWebhook.HandleLineEvent | src/app/api/webhooks/line/route.ts:34-52 | the database and the thrown flag end as the event's handler prescribes, including the steps before a throw |
| LineWebhook.VerifyLineSignature | src/app/api/webhooks/line/route.ts:224-235 | skipped without a secret or signature; otherwise accepted exactly when the signature equals the digest |
| LineWebhook.PostOutcome | src/app/api/webhooks/line/route.ts:6-32 | 401 exactly on a rejected signature, with no change; otherwise the tables the events leave, up to and including a thrown one, and 200 exactly when none throws (else 500) |
| LineWebhook.Post | src/app/api/webhooks/line/route.ts:6-32 | the loop over the events ends in the state and status the outcome prescribes |
| LinkLine.Patched | src/app/api/user/link-line/route.ts:45-52 | a value to write replaces the column; an absent value leaves the stored one |
| LinkLine.FillIfUnset | src/app/api/user/link-line/route.ts:48-51 | a truthy session value is kept; otherwise a truthy supplied value fills it |
| LinkLine.Link | src/app/api/user/link-line/route.ts:6-72 | 401 exactly without a session, 400 exactly without a LINE id, 409 exactly when another user holds it; with nobody else holding it, success exactly when the caller has a row (else 500); success writes the LINE id, and the filled name and picture, into the caller's row only and answers with that row |
| LinkLine.NoOtherHolderFrees | src/app/api/user/link-line/route.ts:24-38 | with no other holder, the id is free for the caller's row |
| LinkLine.LinkKeepsConsistent | src/app/api/user/link-line/route.ts:24-53 | linking keeps the tables consistent |
| LinkLine.RelinkOwnUidSucceeds | src/app/api/user/link-line/route.ts:24-38 | posting one's own LINE id again succeeds |
| LinkLine.PostLink | src/app/api/user/link-line/route.ts:6-72 | the database and answer are those the link function prescribes |
| LinkLine.Status | src/app/api/user/link-line/route.ts:74-110 | 401 exactly without a session, 404 exactly without a row; otherwise the caller's id, LINE id, name, e-mail and picture, and `isLinked` exactly when a truthy LINE id is attached |
| LinkLine.Unlink | src/app/api/user/link-line/route.ts:112-145 | 401 exactly without a session; with a session, success exactly when the caller has a row (else 500), clearing only that row's LINE id |
| LinkLine.DeleteLink | src/app/api/user/link-line/route.ts:112-145 | the database and answer are those the unlink function prescribes |
| LinkLine.LinkThenStatus | src/app/api/user/link-line/route.ts:41-110 | after a successful link, the status reports the posted id as linked |
| LinkLine.UnlinkKeepsConsistent | src/app/api/user/link-line/route.ts:112-145 | unlinking keeps `Store.Consistent` |
| LinkLine.UnlinkThenStatus | src/app/api/user/link-line/route.ts:112-145 | after a successful unlink, the status reports no link |
| Register.ViewOf | src/app/api/auth/register/route.ts:90-97 | the answer keeps the user's id, e-mail and LINE id and omits the password |
| Register.Admissible | src/app/api/auth/register/route.ts:11-57 | all checks pass exactly when the required fields are truthy, the e-mail is well-formed, any phone passes `validatePhone` as written, and the e-mail and any LINE id are free |
| Register.NewUser | src/app/api/auth/register/route.ts:59-71 | the stored password is the cost-12 bcrypt hash of the given one |
| Register.Post | src/app/api/auth/register/route.ts:7-105 | 400 on a failed check; 500 with nothing written when admissible but not insertable; success exactly when admissible and insertable, appending the user and a welcome push to a truthy LINE id when it goes through |
| Register.Insert | src/app/api/auth/register/route.ts:63-96 | the row is inserted exactly when its e-mail and LINE id are free, else 500 with nothing written; an inserted row gets the next id, and one welcome push goes out exactly when the LINE id is truthy and LINE accepts it |
| Register.HandlePost | src/app/api/auth/register/route.ts:7-105 | the database and answer are those registration prescribes |
| Register.InsertIn | src/app/api/auth/register/route.ts:63-88 | the database and answer are those the insert and the welcome push prescribe |
| Register.AdmissibleInserts | src/app/api/auth/register/route.ts:33-71 | with the checks passed and a LINE id that is absent or non-empty, the insert succeeds |
| Register.PostKeepsConsistent | src/app/api/auth/register/route.ts:63-71 | registration keeps the tables consistent |
| Register.SecondRegistrationRejected | src/app/api/auth/register/route.ts:33-43 | a registered e-mail cannot register again |
| Register.SpacedPhoneRejected | src/app/api/auth/register/route.ts:26-31 | as written, a phone number written with spaces gets 400 and nothing is stored |
| Register.StoredPasswordIsHashed | src/app/api/auth/register/route.ts:59-71 | the new row, found by its e-mail, stores the bcrypt hash of the password |
| GoogleCallback.Callback | src/app/api/auth/google-callback/route.ts:7-66 | 400 exactly without e-mail or Google id, 404 exactly for an unknown e-mail, 500 exactly when a LINE id would be written that another user holds; success writes a truthy LINE id into the found account exactly when it has none, and answers with that account's id, e-mail and LINE id |
| GoogleCallback.FreeLineIdWritten | src/app/api/auth/google-callback/route.ts:30-47 | an account without a LINE id takes a LINE id nobody holds: the row is written and the answer carries the new id |
| GoogleCallback.HandleCallback | src/app/api/auth/google-callback/route.ts:7-66 | the database and answer are those the callback prescribes |
| GoogleCallback.ExistingLinkNeverOverwritten | src/app/api/auth/google-callback/route.ts:30-31 | an account with a LINE id keeps it |
| GoogleCallback.CallbackKeepsConsistent | src/app/api/auth/google-callback/route.ts:31-35 | the callback keeps the tables consistent |
| GoogleCallback.LinkedAccountFoundByLineId | src/app/api/auth/google-callback/route.ts:31-35 | after the write, looking up the LINE id finds this account |
| GoogleCallback.HeldLineIdFails | src/app/api/auth/google-callback/route.ts:30-65 | a LINE id held by another user fails with 500 and changes nothing |
| GoogleForms.PaddedNumber | src/app/api/webhooks/google-forms/route.ts:114 | a number padded to six digits is all digits, parses back to the number, and is six long below a million |
| GoogleForms.TicketNumber | src/app/api/webhooks/google-forms/route.ts:112-114 | "TK" followed by digits denoting count + 1, eight characters while below a million |
| GoogleForms.TicketNumberInjective | src/app/api/webhooks/google-forms/route.ts:113-114 | distinct counts give distinct ticket numbers |
| GoogleForms.DeviceSerial | src/app/api/webhooks/google-forms/route.ts:56 | "GOOGLE_FORM_" followed by digits denoting the user id |
| GoogleForms.DeviceSerialInjective | src/app/api/webhooks/google-forms/route.ts:54-58 | distinct users get distinct placeholder serials |
| GoogleForms.ComposeDescription | src/app/api/webhooks/google-forms/route.ts:121-122 | the description starts with the submitted text and names the device, or "ไม่ระบุ" |
| GoogleForms.FindOrCreateUser | src/app/api/webhooks/google-forms/route.ts:36-51 | an existing user is returned unchanged; otherwise a USER with that e-mail is inserted; afterwards the e-mail finds the result |
| GoogleForms.FindOrCreateCompany | src/app/api/webhooks/google-forms/route.ts:62-70 | the "Google Forms" company, reused or appended with a fresh id |
| GoogleForms.FindOrCreateBrand | src/app/api/webhooks/google-forms/route.ts:72-86 | the "General" brand of that company, reused or appended |
| GoogleForms.FindOrCreateModel | src/app/api/webhooks/google-forms/route.ts:88-102 | the placeholder model of that brand, reused or appended |
| GoogleForms.FindOrCreateDevice | src/app/api/webhooks/google-forms/route.ts:53-110 | afterwards the user's placeholder serial finds the result; an existing device changes nothing |
| GoogleForms.Draft | src/app/api/webhooks/google-forms/route.ts:117-128 | a PENDING ticket without a Monday.com id, priority MEDIUM by default, numbered from the ticket count, with the submitted title, the composed description, the submitted images or none, and the given owner and device |
| GoogleForms.AfterCreate | src/app/api/webhooks/google-forms/route.ts:147-207 | only tickets, history and outbox change; one history entry is added; a truthy Monday.com id is recorded on the newest ticket and no other ticket changes |
| GoogleForms.AfterCreateNotifies | src/app/api/webhooks/google-forms/route.ts:157-184 | a LINE notice goes out exactly for a truthy, valid LINE id with a token and a delivered push, and it carries the repair message |
| GoogleForms.Notify | src/app/api/webhooks/google-forms/route.ts:157-184 | the LINE notice changes only the outbox |
| GoogleForms.Writeback | src/app/api/webhooks/google-forms/route.ts:186-206 | recording the Monday.com id changes only tickets |
| GoogleForms.Open | src/app/api/webhooks/google-forms/route.ts:117-214 | 500 exactly for a priority outside the enum, with no change; otherwise only tickets, history, outbox, id counter and clock change |
| GoogleForms.OpenStores | src/app/api/webhooks/google-forms/route.ts:117-214 | with a valid priority the drafted ticket is stored under the next id and the current time, with the Monday.com id when one came back; the answer names it; one history entry records it |
| GoogleForms.Submit | src/app/api/webhooks/google-forms/route.ts:24-222 | 400 exactly without e-mail, title or description; 500 exactly for a bad priority; success stores the ticket with its number, the submitted title, the composed description and the submitted images, owned by the account with the submitted e-mail and on that account's device, and adds one history entry |
| GoogleForms.FindOrCreateUserKeepsConsistent | src/app/api/webhooks/google-forms/route.ts:36-51 | finding or creating the submitter keeps the tables consistent |
| GoogleForms.FindOrCreateCompanyKeepsConsistent | src/app/api/webhooks/google-forms/route.ts:62-70 | keeps the tables consistent |
| GoogleForms.FindOrCreateBrandKeepsConsistent | src/app/api/webhooks/google-forms/route.ts:72-86 | keeps the tables consistent |
| GoogleForms.FindOrCreateModelKeepsConsistent | src/app/api/webhooks/google-forms/route.ts:88-102 | keeps the tables consistent |
| GoogleForms.FindOrCreateDeviceKeepsConsistent | src/app/api/webhooks/google-forms/route.ts:53-110 | keeps the tables consistent |
| GoogleForms.OpenKeepsConsistent | src/app/api/webhooks/google-forms/route.ts:117-207 | creating the ticket and its follow-ups keeps the tables consistent |
| GoogleForms.AfterCreateKeepsConsistent | src/app/api/webhooks/google-forms/route.ts:147-207 | the follow-ups of a stored ticket keep the tables consistent |
| GoogleForms.SubmitKeepsConsistent | src/app/api/webhooks/google-forms/route.ts:24-222 | a submission keeps the tables consistent |
| GoogleForms.SubmissionLeavesAccountAndDevice | src/app/api/webhooks/google-forms/route.ts:36-110 | after a submission the submitter's e-mail and placeholder device are on record |
| GoogleForms.KnownSubmitterAddsNoRows | src/app/api/webhooks/google-forms/route.ts:36-110 | a submitter with an account and placeholder device adds no user or catalogue rows |
| GoogleForms.RepeatSubmissionReusesAccountAndDevice | src/app/api/webhooks/google-forms/route.ts:36-110 | a second submission with the same e-mail creates no user, company, brand, model or device |
| GoogleForms.CurrentMondayClientLeavesNoItemId | src/app/api/webhooks/google-forms/route.ts:187-207 | with the current Monday.com client, the new ticket has no Monday.com id |
| GoogleForms.FindOrCreateUserIn | src/app/api/webhooks/google-forms/route.ts:36-51 | the database ends as finding or creating the submitter prescribes |
| GoogleForms.FindOrCreateCompanyIn | src/app/api/webhooks/google-forms/route.ts:62-70 | the database ends as the company step prescribes |
| GoogleForms.FindOrCreateBrandIn | src/app/api/webhooks/google-forms/route.ts:72-86 | the database ends as the brand step prescribes |
| GoogleForms.FindOrCreateModelIn | src/app/api/webhooks/google-forms/route.ts:88-102 | the database ends as the model step prescribes |
| GoogleForms.FindOrCreateDeviceIn | src/app/api/webhooks/google-forms/route.ts:53-110 | the database ends as the device step prescribes |
| GoogleForms.AfterCreateIn | src/app/api/webhooks/google-forms/route.ts:147-207 | the database ends as the follow-ups prescribe |
| GoogleForms.NotifyIn | src/app/api/webhooks/google-forms/route.ts:157-184 | the database ends as the LINE notice prescribes |
| GoogleForms.WritebackIn | src/app/api/webhooks/google-forms/route.ts:186-206 | the database ends as recording the Monday.com id prescribes |
| GoogleForms.OpenIn | src/app/api/webhooks/google-forms/route.ts:117-214 | the database ends as ticket creation prescribes |
| GoogleForms.HandleSubmit | src/app/api/webhooks/google-forms/route.ts:24-222 | the database and answer are those a submission prescribes |
| TicketsRoute.DigitPrefix | src/app/api/tickets/route-new.ts:15-16 | the longest run of leading digits |
| TicketsRoute.SignedValue | src/app/api/tickets/route-new.ts:15-16 | NaN exactly when no digit follows the optional sign |
| TicketsRoute.ParseInt | src/app/api/tickets/route-new.ts:15-16 | NaN exactly when no digit follows the leading whitespace and sign |
| TicketsRoute.ParseIntRoundTrip | src/app/api/tickets/route-new.ts:15-16 | a number's decimal text, followed by any non-digit text, parses back to it |
| TicketsRoute.ParseIntOfDigits | src/app/api/tickets/route-new.ts:15-16 | a digit run followed by a non-digit parses to the run's value |
| TicketsRoute.ParseIntNegative | src/app/api/tickets/route-new.ts:15-16 | with a minus sign in front, the text parses to the negated number |
| TicketsRoute.ParseIntOfNegativeDigits | src/app/api/tickets/route-new.ts:15-16 | a minus sign, a digit run and a non-digit parse to the run's value negated |
| TicketsRoute.CeilDiv | src/app/api/tickets/route-new.ts:84 | for a positive limit, the least page count whose pages hold every match |
| TicketsRoute.Pages | src/app/api/tickets/route-new.ts:84 | null for a zero limit; otherwise `Math.ceil(total / limit)`: for a positive limit the least page count covering every match, for a negative limit the ceiling of the negative quotient |
| TicketsRoute.SkipWithinTotal | src/app/api/tickets/route-new.ts:21 | for an in-range page, the offset lies within the matches |
| TicketsRoute.WhereOf | src/app/api/tickets/route-new.ts:23-45 | the owner filter exactly for the USER role; each of status, priority and search exactly when truthy |
| TicketsRoute.BuildWhere | src/app/api/tickets/route-new.ts:23-45 | the filter built field by field is the filter for the caller and query |
| TicketsRoute.KnownFilters | src/app/api/tickets/route-new.ts:29-35 | the query is accepted exactly when a status filter names a member of the status enum and a priority filter names one of the priorities |
| TicketsRoute.LowerAll | src/app/api/tickets/route-new.ts:40-43 | ASCII case folding, character by character |
| TicketsRoute.ContainsInsensitive | src/app/api/tickets/route-new.ts:39-43 | the empty term is found in every field; a term longer than the field is found in none |
| TicketsRoute.ExactMatchIsFound | src/app/api/tickets/route-new.ts:40-43 | a verbatim occurrence is found by the case-insensitive search too |
| TicketsRoute.SearchHit | src/app/api/tickets/route-new.ts:38-44 | a verbatim occurrence of the term in the ticket number, title, description or owner's name is a hit |
| TicketsRoute.Matches | src/app/api/tickets/route-new.ts:24-45 | every ticket passes the empty filter; no ticket passes a status filter that names no status |
| TicketsRoute.Select | src/app/api/tickets/route-new.ts:47-75 | every match, and only matching stored tickets |
| TicketsRoute.SelectAscending | src/app/api/tickets/route-new.ts:47-75 | filtering keeps the creation order |
| TicketsRoute.Reverse | src/app/api/tickets/route-new.ts:52 | the order reversed |
| TicketsRoute.WindowBounds | src/app/api/tickets/route-new.ts:50-51 | for a non-negative `take`, a window of at most `take` rows starting at `skip`; for a negative `take` and `skip` below the row count, a window ending `skip` rows before the end, holding `-take` rows or as many as remain |
| TicketsRoute.Window | src/app/api/tickets/route-new.ts:50-51 | Prisma's `skip` and `take` on ordered rows: a non-negative `take` reads forward from row `skip`; a negative one reads backward and ends `skip` rows before the end; each holds as many rows as `take` counts, or as many as remain |
| TicketsRoute.Newest | src/app/api/tickets/route-new.ts:48-52 | only matches, newest first when stored in creation order; for a non-negative `take`, row `k` is the `skip + k`-th newest match, and there are `take` rows or as many as remain after `skip`; for a negative `take`, Prisma's reverse paging: the rows are matches `skip` up to `skip - take` in creation order (fewer when the matches run out), listed last first |
| TicketsRoute.List | src/app/api/tickets/route-new.ts:7-94 | 401 exactly without a session; with one, 500 when `page` or `limit` (default "1" and "10") does not parse, and otherwise the listing for the parsed values |
| TicketsRoute.Listing | src/app/api/tickets/route-new.ts:21-86 | 500 exactly for a negative offset or an enum filter naming no member; otherwise the newest-first window of the matches at offset `(page - 1) * limit`, the match count and `ceil(total / limit)` pages |
| TicketsRoute.Get | src/app/api/tickets/route-new.ts:7-94 | the answer is the listing for the caller and query |
| TicketsRoute.GetPage | src/app/api/tickets/route-new.ts:21-86 | the answer is the page the listing prescribes |
| TicketsRoute.UserRoleSeesOwnTickets | src/app/api/tickets/route-new.ts:26-28 | a USER sees only their own tickets |
| TicketsRoute.OtherRolesUnrestricted | src/app/api/tickets/route-new.ts:26-28 | any other role without filters counts every ticket |
| TicketsRoute.SelectAll | src/app/api/tickets/route-new.ts:47-75 | when every ticket matches, all are selected |
| TicketsRoute.PageNewestFirst | src/app/api/tickets/route-new.ts:52 | in consistent tables a page lists newest first |
| TicketsRoute.ListingNewestFirst | src/app/api/tickets/route-new.ts:52 | over tickets in creation order, every listed page runs newest first |
| TicketsRoute.Create | src/app/api/tickets/route-new.ts:96-192 | 401 exactly without a session, 400 exactly without title, description or device id, then 404 exactly for an unknown device, and 500 exactly for a priority outside the enum or a caller without a row; success adds a PENDING ticket of the caller with no images and one history entry |
| TicketsRoute.Post | src/app/api/tickets/route-new.ts:96-192 | the database and answer are those creation prescribes |
| TicketsRoute.CreateKeepsConsistent | src/app/api/tickets/route-new.ts:145-182 | creating a ticket keeps the tables consistent |
| TicketsRoute.CreatedTicketHeadsFirstPage | src/app/api/tickets/route-new.ts:47-52 | a ticket just created is the first row of its owner's unfiltered first page |
| TicketsRoute.NewestMatchHeadsPage | src/app/api/tickets/route-new.ts:47-52 | a matching ticket stored last heads the first page of ten |
| TestToken.FirstBoard | src/app/api/monday/test-token/route.ts:21 | a board exactly when the reply has data with a non-empty board list |
| TestToken.BoardColumns | src/app/api/monday/test-token/route.ts:21-31 | columns come only from the first board, and are all of that board's columns when it lists them |
| TestToken.FilesColumns | src/app/api/monday/test-token/route.ts:21-23 | exactly the ids of the `file` columns |
| TestToken.FilesColumnsAppend | src/app/api/monday/test-token/route.ts:21-23 | the filter distributes over concatenation, so the ids keep board order |
| TestToken.ImageVideoRule | src/app/api/monday/test-token/route.ts:35 | a column is an image/video column exactly when its title contains "รูป" or "วีดิโอ" |
| TestToken.AllColumns | src/app/api/monday/test-token/route.ts:31-36 | one entry per column, in order, with its id, title, type and the title rule |
| TestToken.Test | src/app/api/monday/test-token/route.ts:4-49 | failure exactly when the query throws (with the `Error`'s message, or "Unknown error" for any other thrown value) or returns nothing (with the connection hint); otherwise the first board's name, or "Unknown" when it has none, `columnCount` equal to the number of the board's columns, `filesColumns` the ids of its file columns and `allColumns` the view of every column |
| TestToken.NoBoardDescribedEmpty | src/app/api/monday/test-token/route.ts:21-36 | a reply without a board describes an empty board named "Unknown" |

## Left out

- Network calls are not executed. This covers the LINE Messaging API, Monday.com, bcrypt and HMAC. Their outcomes are parameters: whether LINE accepts each push (a flag, or for the LINE webhook a `Delivery` per event), the Monday.com item id, the digest, the formatted date.
- `Register.NewUser` records the hash as `Bcrypt(12, password)`. It does not model bcrypt's salt or output format.
- `generateTicketNumber` (src/lib/utils.ts:9-14) reads the clock and a random source. Its result is a parameter of `TicketsRoute.Create`, so ticket-number uniqueness is not modelled.
- The Prisma schema is not part of this model. The default user role comes in as a parameter. The unique indexes are taken from the `findUnique` calls on `email` and `lineUserId`.
- Response `include`s are not modelled. This covers the user, device, model, brand and company relations and the comment count. Answers carry the stored rows only.
- Concurrency is not modelled. Each request runs alone. In particular, the ticket count that Google Forms numbering reads cannot race with another insert.
- Prototype keys of JavaScript object lookups, such as `constructor` used as a status name, are not modelled. The lookup tables map only their own keys.
- `TicketsRoute.ParseInt` does not model `parseInt`'s hexadecimal reading of a `0x` prefix, or the loss of precision beyond 2^53.
- `TicketsRoute.ContainsInsensitive` folds ASCII letters only. The database's case-insensitive matching of other scripts is not modelled.
- A request body that is not JSON is not represented. `JSON.parse` in the LINE webhook (src/app/api/webhooks/line/route.ts:16) and `request.json()` in the POST routes throw on it, and the route answers 500.
- JSON fields of unexpected types are not modelled. Every body field is a string or absent; `deviceId` is a natural or absent.
- `createGoogleOAuthUrlWithLineUid` (src/lib/auth-utils.ts:48-57) is not modelled. WHATWG URL serialisation is out of reach, so `AuthUtils.LineUidFromBuiltUrl` covers the plain `?lineUid=` form only.
- `AuthUtils.ExtractLineUidFromUrl` models the parser's trimming of leading and trailing C0 controls and spaces, its removal of tabs and newlines, and the `+`-to-space decoding of `searchParams`. It does not model percent-decoding, so a value with a `%` escape comes back still encoded. Nor does it model whether `new URL` accepts the input, which is a parameter.
- `AuthUtils.SearchParam` compares parameter names without decoding them. This agrees with the source for the name `lineUid`, but not for a name that holds a space or a `%` escape.
- Storage exceptions are not modelled. This covers a full quota and blocked storage.
- `MondayService.handleWebhook` (src/lib/monday.ts:92-98) only logs, so it has no model.
- Console logging is not modelled anywhere.
- Database outages are not modelled. A lookup or write fails only where a unique index or a foreign key rejects it.
- `LinkLine.Link` reads a session name or picture that is missing as absent (`undefined`), which leaves its column as stored. A session value that is explicitly `null` would clear the column in the source; the model does not tell `null` from absent there.
- `getBoardColumns` is called at src/app/api/monday/test-token/route.ts:7 but `MondayService` does not define it. As written the call throws and the route answers 500. `TestToken.Test` takes the query's outcome as a parameter, and `Threw` is the current behaviour.
- `LineWebhook.ClassifyEvent`: the model gives every event a source user id and every text message a text. The source also throws for an event without `source` and for a text message without `text` (src/app/api/webhooks/line/route.ts:35-39); those events are not represented.
- A column title that is not a string, which would throw at src/app/api/monday/test-token/route.ts:35, is not modelled.
- Message texts are modelled through their structure: lines, prefixes and the values they carry. Date formatting in the Thai locale is the `formatDate` or `timeText` parameter.

## Findings

| source | as written | input that shows it | evidently intended | confidence | as-written member | corrected member |
|---|---|---|---|---|---|---|
| src/lib/utils.ts:36 | the class `[0-9-()s]` admits the letter `s` and no whitespace | "ssssssssss" is accepted; "081 234 5678" is rejected | `[0-9-()\s]`, admitting spaces between digit groups | high (not executed) | Utils.PhoneClassTakesLetterS | Utils.PhoneIntendedAcceptsSpaces |

Registration (`Register.Admissible`) uses the check as written, so a number written with spaces is refused there (`Register.SpacedPhoneRejected`).
