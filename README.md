# Event log, derived views, reply notifications and screen resolution — a Dafny model

This project models the sequential logic under five pieces of a multi-tenant
discussion platform:

- **The event-log dashboard** (`client/structure/eventlog.js`). The event-log
  screen keeps the fetched events and a window `limit` as state. Each render
  sorts the events newest first, in place. It then keeps the events that match
  every filter prop that is present (`eventType`, `sessionKey`, `siloKey`) and
  shows the first `limit` of them. "Load more" doubles the window, which starts
  at 20. "Refresh" replaces the events wholesale. A viewer who is not an admin
  sees "Not authorized", but the read is still sent on mount. The session list
  pages the same way. Small display rules choose the session time, the device
  label, the preview's user name and the extra fields of an expanded event.
  Module `EventLog`, built on the `filter`/`slice` model in `Sequences`.
- **The comments-on-profile derived view**
  (`server/derived-views/comments-on-profile.js`). When a comment is written
  under `simplecomments`, the handler upserts a copy at
  `profile/<comment.from>/comment/<comment.key>`. The copy holds the comment's
  fields, with the source write's `instanceKey` and `structureKey` written over
  any fields of those names. Module `CommentsOnProfile`: the derived objects
  are a `map` field of a `Datastore` class, and the handler is a method that
  changes that one field.
- **The reply notification** (`server/component/notifs.js`). From six store
  reads, it either assembles a fully resolved message for the templated-e-mail
  sender or fails before the send. Module `Notifs`: a pure function over the
  read results, returning a `Result`.
- **The admin-email rule** (`client/util/config.js`). `emailIsAdmin` splits the
  address on `'@'` and compares the second piece exactly with the two admin
  hosts. Module `Config`, with a model of `String.prototype.split` and its
  round trip through `join`.
- **Screen resolution** (`client/util/instance.js`). This covers the structure
  lookup by key, the choice of screen and title, the login interception, and
  whether the top bar shows. Module `Instance`: pure selection functions.
  Reading a property of a missing structure is a JavaScript `TypeError`, and
  the model returns it as a `Crashed`/`Failure` value.

Shared modules: `Wrappers` (`Option`, `Result`), `Values` (JavaScript scalars,
flat objects, property access, truthiness, `??`, ASCII upper-casing).

Notes on how the model reads the code:

- Filters use truthiness, as the code does (`!eventType || ...`). An empty-string
  filter therefore imposes no constraint, like an absent one.
- The code sorts on the client (`events.sort`), so the model does not rely on
  any order the event read promises. `Array.prototype.sort` is stable, so it is
  modelled as a stable insertion sort on the event list. The render writes the
  sorted list back into the `events` state, as the in-place sort does.
- The silo-name fallback is the silo key upper-cased. The conversation-name
  fallback is the literal `'Unnamed Conversation'`. Both apply only to `null`
  and `undefined` (`??`), not to other falsy values.
- Each of the notification's six store calls is a read of its own. Two calls with
  the same key, such as the two persona reads of a self-reply, can see different
  results.
- The notification's reads are awaited in a fixed order: parent comment, reply
  comment, conversation name, silo name, the reply author's persona, then the
  parent author's persona. The first rejection decides the failure. A missing
  reply comment fails when `replyComment.from` is read. A missing parent comment
  fails when `parentComment.from` is read. A missing reply-author persona fails
  when `replyAuthorPersona.name` is read.
- `emailIsAdmin('x@zdf.digital@other.com')` is true as written, because only the
  segment between the first two `'@'` is compared.
- `getStructureForKey` returns `null` for a falsy key and `undefined` when no
  structure matches. Callers treat the two alike, so both are `None`.
- `triggerOnObjectWrite` lives in a module that is not part of this model. The
  model assumes that a write fires the binding exactly when its structure and
  object type equal the bound ones (`CommentsOnProfile.Fires`).

## Model

| member | source | states |
|---|---|---|
| `EventLog.SortNewestFirst` | client/structure/eventlog.js:116 | the descending-time sort returns a newest-first list with the same multiset of events as its input |
| `EventLog.SortIsStable` | client/structure/eventlog.js:116 | the sort is stable: for every time, the events of that time appear in the sorted list in the same order as in the fetched list |
| `EventLog.SortSpec` | client/structure/eventlog.js:116 | the sorted events are newest first, for every pair and so for consecutive ones, and they are a permutation (same multiset) of the fetched events |
| `EventLog.SortKeepsSorted` | client/structure/eventlog.js:116 | sorting a list that is already newest first returns it unchanged, so the in-place sort on later renders leaves the state alone |
| `EventLog.FilterEvents` | client/structure/eventlog.js:117-121 | each event is kept exactly as often as it occurs if it matches every present (truthy) filter, and never otherwise; every kept event matches; the kept events are an order-preserving subsequence of the input |
| `EventLog.NoFilterKeepsAll` | client/structure/eventlog.js:117-121 | with every filter absent, the filter keeps the whole sorted list |
| `EventLog.EventLogViewOf` | client/structure/eventlog.js:116-139 | a viewer who is not an admin gets "Not authorized"; an admin gets an event list of at most `limit` events, newest first, each matching every present filter |
| `EventLog.ShownEvents` | client/structure/eventlog.js:116-138 | for an admin: each event is kept exactly as often as it was fetched if it matches every present filter, and never otherwise; the kept events are an order-preserving subsequence of the sorted list; the shown events are exactly the first min(limit, number kept), newest first, each matching; "Load more" is offered iff more events were kept than the window holds |
| `EventLog.NotAdminSeesNothing` | client/structure/eventlog.js:124-128 | a viewer who is not an admin gets "Not authorized", whatever the events, filters and window |
| `EventLog.LimitAfter` | client/structure/eventlog.js:105 | the window after any number of presses is at least the initial 20 |
| `EventLog.LoadMoreExtends` | client/structure/eventlog.js:138 | the list shown after k presses is a prefix of the list shown after k+1 presses; when "Load more" is offered, pressing it shows strictly more; when it is not offered, the whole list is already shown |
| `EventLog.FortyFiveMatches` | client/structure/eventlog.js:122 | with 45 matches the windows show 20, 40, then all 45, and "Load more" is offered after the first two only |
| `EventLog.EventLogScreen.constructor` | client/structure/eventlog.js:104-105 | a new screen holds no events, a window of 20 and no issued reads |
| `EventLog.EventLogScreen.Refresh` | client/structure/eventlog.js:107-110 | the query is issued whoever the viewer is; a successful read replaces the events with the fetched list; after a failed read the prior events remain; the window is unchanged |
| `EventLog.EventLogScreen.LoadMore` | client/structure/eventlog.js:138 | the window doubles, and it stays 20 times a power of two |
| `EventLog.EventLogScreen.Render` | client/structure/eventlog.js:116-139 | the state's events become their newest-first sort, the window invariant is kept, and the view is the view of the events before the sort, so sorting in place does not change what is shown |
| `EventLog.OpenEventLog` | client/structure/eventlog.js:112-128 | opening the screen issues the query exactly once on mount, even to a non-admin, who sees only "Not authorized"; an admin first sees an empty list, then the view of the fetched events, or still the empty list if the read failed |
| `EventLog.SessionListViewOf` | client/structure/eventlog.js:73-84 | the session list shows exactly the first min(limit, number of sessions) sessions in fetched order and offers "Load more" iff there are more sessions than the window |
| `EventLog.SessionListScreen.constructor` | client/structure/eventlog.js:61-62 | a new session list holds no sessions and a window of 20 |
| `EventLog.SessionListScreen.Refresh` | client/structure/eventlog.js:64-67 | a successful read replaces the sessions wholesale; after a failed read the prior sessions remain |
| `EventLog.SessionListScreen.LoadMore` | client/structure/eventlog.js:84 | the window doubles |
| `EventLog.SessionListScreen.Render` | client/structure/eventlog.js:73-84 | the rendered list is the paged view of the current sessions |
| `EventLog.SessionTime` | client/structure/eventlog.js:92 | the session time shown is the end time when there is one, else the start time |
| `EventLog.DeviceLabel` | client/structure/eventlog.js:96 | the device label is 'Mobile' iff the session has device info whose `isMobile` is truthy, and 'Desktop' otherwise |
| `EventLog.PreviewUserName` | client/structure/eventlog.js:166 | the preview shows the event's user name, or 'anon' when it has none |
| `EventLog.ExtraKeys` | client/structure/eventlog.js:171-174 | every extra key is one of the event's field names and not one of the nine reserved names, and the extra keys keep the event's order |
| `EventLog.ExtraKeysSpec` | client/structure/eventlog.js:171-174 | the extra keys are exactly the event's field names outside the nine reserved ones, each as often as the event has it, in the event's own order |
| `CommentsOnProfile.ProfileCopy` | server/derived-views/comments-on-profile.js:9 | the copy has every field of the comment plus `instanceKey` and `structureKey`; those two are the source write's coordinates, whatever the comment carried; every other field is the comment's, unchanged |
| `CommentsOnProfile.OnlyProfileEntryChanges` | server/derived-views/comments-on-profile.js:4-10 | one run adds or replaces the single entry at `profile/<from>/comment/<key>`, holding the copy, and every other entry is unchanged |
| `CommentsOnProfile.RefireIsSafe` | server/derived-views/comments-on-profile.js:4-10 | running the handler twice on the same write leaves the same store as running it once |
| `CommentsOnProfile.EvolvedCommentOverwrites` | server/derived-views/comments-on-profile.js:4-10 | re-firing with an evolved comment at the same coordinate leaves the store as if only the later write had been copied |
| `CommentsOnProfile.ExampleCopy` | server/derived-views/comments-on-profile.js:3-10 | the comment `{from:'u1', key:'c1', text:'hi'}` written under `simplecomments/conv1` yields, at `profile/u1/comment/c1`, a copy with text 'hi', `instanceKey` 'conv1', `structureKey` 'simplecomments' and `from` 'u1' |
| `CommentsOnProfile.OnObjectWrite` | server/derived-views/comments-on-profile.js:13-14 | the binding fires exactly for writes of type 'comment' under 'simplecomments'; a firing write adds or replaces exactly the entry at the comment's profile coordinate, with the copy stamped with 'simplecomments' and the write's instance, and keeps every other entry; any other write leaves the derived store unchanged |
| `CommentsOnProfile.Datastore.SetDerivedObject` | server/derived-views/comments-on-profile.js:4-10 | a wholesale upsert: the entry at the coordinate becomes the value and nothing else changes |
| `CommentsOnProfile.CommentsOnProfileAsync` | server/derived-views/comments-on-profile.js:3-11 | the handler changes the store exactly as one profile-copy upsert does |
| `CommentsOnProfile.Dispatch` | server/derived-views/comments-on-profile.js:13-15 | a committed write changes the derived store only through the bound handler |
| `Notifs.SendNotifsForReply` | server/component/notifs.js:3-26 | a message exists iff every read resolved and the parent comment, the reply comment and the reply author's persona exist; the failure is the first one in await order: a rejection of the parent-comment, reply-comment, conversation-name or silo-name read, then the `TypeError` on `replyComment.from` for a missing reply, a rejected reply-author persona read, the `TypeError` on `parentComment.from` for a missing parent, a rejected recipient persona read, and the `TypeError` on `replyAuthorPersona.name` for a missing author persona; the message carries template 'reply-notif', the given language and the store's silo, structure and instance keys; it goes to the parent comment's author with that author's persona; it carries the reply's text and its author's persona name; an absent conversation name becomes 'Unnamed Conversation' and an absent silo name the upper-cased silo key, otherwise the stored names are kept |
| `Notifs.OrElse` | server/component/notifs.js:12 | `x ?? fallback`: the fallback exactly when the value is null or undefined, the value itself otherwise |
| `Values.ToUpperAscii` | server/component/notifs.js:12 | the upper-cased silo key has the key's length, each ASCII letter upper-cased and every other character unchanged, and contains no lower-case ASCII letter |
| `Notifs.SelfReplySecondPersonaReadRejects` | server/component/notifs.js:13-14 | in a self-reply the two persona reads of the same user are separate: the reply author's can resolve while the recipient's rejects, and then the assembly fails with that rejection |
| `Notifs.MissingCommentIsFatal` | server/component/notifs.js:13-14 | a missing parent or reply comment makes the assembly fail, so nothing is sent |
| `Config.Split` | client/util/config.js:10 | `split` always yields at least one piece |
| `Config.EmailIsAdmin` | client/util/config.js:9-12 | an address without '@' is never an administrator's |
| `Config.SplitJoin` | client/util/config.js:10 | joining the pieces of a split with the separator gives the string back, and no piece contains the separator |
| `Config.NoAtIsNotAdmin` | client/util/config.js:10-11 | an address without '@' is never an administrator's |
| `Config.IsAdminIffHost` | client/util/config.js:10-11 | an address is an administrator's iff the segment after its first '@', up to the next '@' or the end, is exactly 'zdf.digital' or 'zdf-digital.com' |
| `Config.LocalPartIrrelevant` | client/util/config.js:10 | the part before the first '@' never changes the result |
| `Config.SeveralAts` | client/util/config.js:10-11 | with several '@', the segment between the first two decides: 'x@zdf.digital@other.com' is an administrator's address |
| `Config.SeveralAtsLaterHostIgnored` | client/util/config.js:10-11 | 'x@other.com@zdf.digital' is not an administrator's address, although it ends in an admin host |
| `Config.AdminHostDotDigital` | client/util/config.js:11 | an address at 'zdf.digital' is an administrator's |
| `Config.AdminHostDotCom` | client/util/config.js:11 | an address at 'zdf-digital.com' is an administrator's |
| `Config.HostCaseSensitive` | client/util/config.js:11 | matching is case-sensitive: an address at 'ZDF.digital' is not an administrator's |
| `Config.SubdomainNotAdmin` | client/util/config.js:11 | matching is exact: an address at the subdomain 'mail.zdf.digital' is not an administrator's |
| `Instance.GetStructureForKey` | client/util/instance.js:135-138 | a falsy key gives no structure; otherwise the result is the first registered structure with that key, or nothing when no structure has it |
| `Instance.GetScreen` | client/util/instance.js:94-102 | without a screen key, the structure's screen; for 'teaser', the structure's teaser; otherwise the screen set's entry, or nothing when it has none; it fails exactly when it must read a missing structure |
| `Instance.GetScreenTitle` | client/util/instance.js:104-120 | with a screen key, a string title as it is, a component title as that component rendered with the params, and a missing title as null; without one, the global name if set, else the structure's name; it fails exactly when that structure is missing |
| `Instance.StackedScreen` | client/util/instance.js:61-92 | the login screen appears iff some key equals 'login'; otherwise nothing is rendered iff no screen resolves; a resolved screen is rendered with the stack entry's params iff it needs no top bar or its structure exists; a rendered screen has a top bar iff the screen key is not 'teaser', and that bar holds the screen title and the structure's name; it crashes iff resolving the screen reads a missing structure, or a top bar must read a missing structure's name |
| `Instance.LoginRegardlessOfScreens` | client/util/instance.js:65-70 | when a key is 'login', the screen set does not affect what is rendered |
| `Instance.ActiveFeatures` | client/util/instance.js:32 | missing active features default to the empty list, and stored ones are used as they are |

## Left out

- React rendering, hooks, navigation (`pushSubscreen`, `gotoInstance`, `window.open`), styles, fonts, `formatDate` and translation are presentation. The admin flag, the global name, the fetched lists and the store's read results are inputs.
- The foreign calls `getLogEventsAsync`, `getSessionsAsync`, `useSession`, `getObjectAsync`, `getGlobalPropertyAsync`, `getModulePublicAsync`, `getPersonaAsync` and `sendTemplatedEmailAsync` are not part of this model. Their results are parameters, and the send's own outcome is not modelled.
- The concurrent start of the four reads in the notification, and the rejections of reads that are never awaited, are concurrency. Only the order in which the results are awaited is modelled.
- `toUpperCase` is modelled on ASCII letters only; its other Unicode case mappings are not.
- The dispatcher behind `triggerOnObjectWrite`, handler-failure isolation and asynchronous dispatch are not part of this model; only the binding's arguments are.
- Session aggregation (start and end time, device-info merging) is done by a module that is not part of this model.
- `assembleConfig`, `assembleScreenSet`, `useIsAdminForSilo`, `chooseInstanceByKey`, the URL constants and `getIsLocalhost` are not part of this model. The screen set is an input.
- Rendering a title component (`React.createElement(title, params)`) and a screen is modelled by naming the component and its params.
- The console error logged for a missing screen or missing keys is not modelled.
- The key order of a derived copy is not modelled: store objects are maps.
- JavaScript numbers are modelled as unbounded integers. Every event has an integer time, and session start and end times are integers when present. A missing or fractional time is not modelled. A missing time would make `b.time - a.time` yield NaN, and the resulting sort order is implementation-defined.
