# Salut: a verified model

A Dafny model of the stateful core of Salut, the link-local XMPP connection manager, and proofs about it. Salut is
event-driven C: signal handlers mutate tables, queues and flags. Each component is therefore modelled twice. A module of
functions says what every handler does to a value that holds the whole state of the component, which invariant every
handler keeps, and what follows for all runs from the initial state. A class with the fields of the C object has one
method for each C function, with its loops and branches, proved to take the state where the functions say. `dafny verify
dfyconfig.toml` checks everything.

| file | what it models |
|---|---|
| `MucRequests.dfy`, `MucManager.dfy` | channel requests of the room manager, text channels hidden behind their tubes |
| `MucHistory.dfy` | what whole runs of the room manager decide: where tokens wait, when a text channel goes, runs that lose a token |
| `MucAnswers.dfy` | which answer each request of the room manager gets, and what is announced unasked |
| `MucTubes.dfy` | tube announcements in a room: parsing, reconciliation, publishing, tube ids |
| `ContactTable.dfy`, `ContactManager.dfy` | the weak contact table, its references, resolvers, and the published contact list |
| `ContactChanges.dfy` | change masks, freezing and coalescing, and what listeners see of a contact |
| `PresenceRecord.dfy` | the presence record we publish, its updates, and what a contact reads from it |
| `AvatarQueue.dfy` | the queue of avatar requests and the record browser that serves it |
| `Sidecars.dfy` | creation of connection sidecars by plugins |
| `DiscoRequests.dfy` | outstanding service discovery requests |
| `OlpcKey.dfy` | the OLPC key in parts of a TXT record |
| `ProgressThrottle.dfy` | rate limiting of file transfer progress signals |
| `Capabilities.dfy`, `FtCapabilities.dfy` | interned capability sets, their discovery form, what is advertised for local clients, file transfer classes |
| `RoomResolvers.dfy` | resolvers of the rooms on the link |
| `Collections.dfy`, `CStrings.dfy` | counting in queues and tables; C number printing and parsing |

Two kinds of results stand beside the invariants. Some say that events alone decide a state: a fold over the events that never
looks at the handlers agrees with them on every run (`RequestsAreHistory`, `ContactsAreHistory`, `InterfaceIsHistory`,
`AnswerIsHistory`, `FieldsAreHistory`, `SelfClosingIsHistory`), or, where a handler needs the state to decide, its guards do
(`AnswerIsFate`, `StepLife`). Others are round trips between two parts of the program (`PublishedArrives`,
`PresenceRoundTrip`, `PeerSeesServices`, `PublishesRoundTripIff`).

Objects have identities that are never reused, so a freed channel or contact cannot be confused with a new one. Hash tables
are walked in any order: loops over them pick an arbitrary remaining key, and results hold for every order. Counts are
unbounded except where the source's width matters, and there wrap-around, saturation and truncation are written out
(`ToUint32`, `ToInt32`, `Saturate`, `Quotient`, `UINT64`).

## Premises

What the environment is taken to do is in the `Possible`, `MayAct`, `Fires` and `Steady` predicates and in the parameters of
events:

- Whether a connection, resolver, browser or plugin attaches, connects or succeeds is a parameter of the event, or, for
  avatar browsers, a function from attempts to outcomes that every result quantifies over.
- Signal listeners do not re-enter the object, with two exceptions: avatar callbacks request again to any depth, and discovery
  callbacks make, cancel and drop requests and may dispose of the disco object.
- Room manager: the request token of each request is a number; handlers run for live channels and tubes, and not after
  `close_all`. `set_autoclose` is not called from outside.
- Contacts: resolved and failed events come from listed resolvers; removals name a contact that currently has a service
  (`RemovalFits`); outside code releases only references it holds.
- Sidecars: creation completes asynchronously, and failures set an error; a valid interface name has no slash.
- Discovery: the porter comes back once for each request, never before the request has been listed; when told to cancel it
  may come back at once.
- Progress: for the spacing of signals only, the clock does not run backwards and timeouts do not fire early.
- `LONG_MAX` is a parameter, so nothing depends on the width of a long.

## What the code does against its own intentions

The model follows the code. Where that is not what a comment or a caller expects, a lemma gives the exact condition or a
state where it shows.

- A request token of the room manager is lost in three ways: `muc-manager.c:925` drops the error when a text channel cannot be
  connected; `muc_channel_ready_cb` discards the tokens of a channel that was hidden meanwhile (`HidingLosesWaiting`,
  `TokenLost`); and it announces a tube that closed meanwhile through a pointer that is no longer good (`ReadyDropsIff`,
  `TubeTokenLost`). `RequestsConserved` says that every other token is answered or still waits.
- Waiting may be for nothing: a text channel closed or left before its room is ready keeps its tokens queued, and then only
  `close_all` answers them (`StrandedUntilClosed`, `TokenStranded`). `WaitingHasHome` says exactly when every waiting token
  still has a live room to wait for.
- A hidden text channel that is requested again keeps its self-closing flag (`RerequestedStillAutocloses`, `TakenFromRequester`).
- `update_tube_info` sends nothing at all when someone else's stream tube is open, although its comment speaks of skipping
  that tube (`UpdateTubeInfo`).
- A tube is announced once more while it closes, before it leaves the table. A D-Bus tube is not open any more by then
  (`ClosingLeaves`), but a stream tube keeps its state, so peers that do not know it make it anew (`ClosedStreamReappears`).
- Avatar callbacks may run out of order: a callback that asks again during a flush is answered before those that still wait when
  the avatar is gone or retrieving it fails at once (`AnswersInOrder`).
- A service removed costs its contact a reference whenever no service is left, also if there was none before, as after a
  resolver that could not attach (`FailedAttachUnbalances`, `RemovalBalancesIff`).
- Disposing of a contact runs the waiting avatar callbacks but leaves the record browser running
  (`BrowserOutlivesContact`). The discovery client is cleared first, so a callback that requests an announced avatar again
  uses a NULL client (`DisposalAnswersAll`, `DisposalCrashes`).
- `salut_self_set_olpc_properties` stores the new key before `salut_avahi_self_set_olpc_properties` counts the parts of the
  old one, so a shorter key leaves stray parts behind, and readers append them (`StoredFirstIff`, `SetsRoundTripIff`;
  `PublishesRoundTripIff` for any stored keys).
- `ABS` of the smallest `gint` makes the progress timer wait almost 25 days (`CurrentOrPending`, `TimerDelay`, `TimerDelayLost`).
- The Gabble version is read with `strtol` and cast to `int`, so version numbers 2^32 apart are the same (`OmitsIff`).
- The mask sent when a contact is found lacks the real name bit; the jid and email bits make up for it
  (`FoundMaskSuffices`, `SufficientMasks`).

## Model

| member | source | states |
|---|---|---|
| `MucRequests.RequestsConserved` | src/muc-manager.c:384-953 | in every reachable state every waiting tube is listed under its own text channel, and each token is answered and queued together exactly as often as it was accepted, if and only if it did not pass one of the three leaks (a text request whose room connection fails, a text channel that becomes ready while hidden, a tube that closed before its room became ready) |
| `MucRequests.AnsweredOnce` | src/muc-manager.c:384-953 | on any run a token accepted once is answered or queued at most once in all: no token is answered twice, none is answered while it still waits |
| `MucRequests.ClosedAnswersAll` | src/muc-manager.c:164-201 | after close_all no token waits, and whatever did not leak on the way has been answered |
| `MucAnswers.AnswerIsFate` | src/muc-manager.c:384-953 | on any run a token used for one request has been given exactly the one answer its fate says, told apart by error and by object, or waits on exactly the object its fate says: refused if malformed, if new was asked for and the text channel of the room is on the bus, if it is for a tube and the room connection fails, or if it still waits at a join error or close_all; satisfied by the channel on the bus, given one that is up, or given what it waits for when the room comes up and that is still on the bus |
| `MucAnswers.GivenWhatWasAskedFor` | src/muc-manager.c:730-953 | whatever happens before and after, what a request waits for or is given is the text channel of the room it asked for, or a tube of it for a tube request |
| `MucAnswers.StepAgrees` | src/muc-manager.c:384-953 | one handler: log and queues agree with what the event makes of the request, from any valid state |
| `MucAnswers.ReadyAnnounces` | src/muc-manager.c:490-524 | a room that comes up announces its text channel with its tokens if that is on the bus, and then each listed tube once, in order, those that closed to nobody |
| `MucAnswers.StanzaAnnounces` | src/muc-channel.c:1233-1310 | a stanza announces a hidden text channel again and each new tube, in order, and nothing else |
| `MucAnswers.InvitationAnnounces` | src/muc-manager.c:1005-1124 | an invitation announces the text channel it makes |
| `MucRequests.StepConserves` | src/muc-manager.c:384-953 | one handler: tokens answered, queued and leaked after it are those answered and queued before it plus the one it accepts |
| `MucRequests.StepKeeps` | src/muc-manager.c:411-953 | every handler keeps the manager invariant: room table and live channels name each other, nothing waits on a ready channel, waiting tubes are listed under their own channel, a self-closing channel has tubes |
| `MucRequests.RunKeeps` | src/muc-manager.c:411-953 | the invariant holds after any run |
| `MucRequests.RunAccounts` | src/muc-manager.c:384-953 | the same accounting along any run from any valid state |
| `MucRequests.ReadyCallbackHolds` | src/muc-manager.c:490-524 | becoming ready answers or drops every token of the channel and of its waiting tubes once |
| `MucRequests.ReadyDropsIff` | src/muc-manager.c:490-524 | it drops a token if and only if the token waits on a channel that is not on the bus or on a listed tube that has closed |
| `MucRequests.JoinErrorHolds` | src/muc-manager.c:527-564 | a join error answers every token of the channel and of its waiting tubes once, with a failure, and drops none |
| `MucRequests.HandleTextHolds` | src/muc-manager.c:850-926 | a text request answers or queues its token exactly once, except when the room connection fails: its error is dropped and the token with it |
| `MucRequests.HandleTubeHolds` | src/muc-manager.c:730-785 | a tube request answers or queues its token exactly once in every branch, a failing room connection included |
| `MucRequests.HidingLosesWaiting` | src/muc-manager.c:498-505 | closing a text channel that has tubes before its room is ready loses exactly the tokens that wait on the text channel, besides those of tubes that have closed |
| `MucRequests.AutocloseWaitsForTubes` | src/muc-channel.c:1386-1425 | no reachable state has a live text channel set to close itself without a tube |
| `MucRequests.RerequestedStillAutocloses` | src/muc-manager.c:897-922 | a hidden text channel that is requested again is shown to the requester but stays set to close itself, so closing its last tube destroys it |
| `MucHistory.TakenFromRequester` | src/muc-channel.c:1408-1425 | a run that gets there: text channel and tube are up, Close, and a second request, answered with the hidden channel; closing the tube then takes the channel away |
| `MucHistory.WaitingHasHome` | src/muc-channel.c:1408-1425 | on any run before close_all every waiting token waits on a live text channel that is not ready, or on a tube of one, if and only if no channel was closed, left, or closed with its last tube while a token waited on it or on a tube of it |
| `MucHistory.StepLive` | src/muc-manager.c:411-953 | one handler: the same for one step from any valid state |
| `MucHistory.StepLife` | src/muc-manager.c:384-953 | the life of a text channel: whatever happens, it is made, changed (on the bus, ready, self-closing, its tubes) and taken away exactly as the event alone says |
| `MucHistory.StrandedUntilClosed` | src/muc-channel.c:564-586 | once the text channel is gone on which, or on a tube of which, a token waits, that queue stays as it is in every continuation before close_all, and a token used for one request is not answered |
| `MucHistory.TokenStranded` | src/muc-channel.c:564-586 | a text request, and the room is left before it is up: such a token |
| `MucHistory.SelfClosingIsHistory` | src/muc-channel.c:1268-1276 | in every reachable state a live text channel is set to close itself if and only if a Close of it came after the last stanza from its room, and then it has a tube |
| `MucHistory.ChannelGoesIff` | src/muc-channel.c:1642-1656 | after any run an event takes a live text channel away if and only if it is close_all, the loss of its connection, leaving it before it is ready, closing it without tubes, or closing its last tube after a Close that no stanza followed; otherwise it keeps its room, and a Close takes it off the bus |
| `MucHistory.TokenLost` | src/muc-manager.c:498-505 | a text request, a tube request, Close, and then the room becomes ready: the token of the text request leaks |
| `MucHistory.TubeTokenLost` | src/muc-manager.c:507-521 | a tube request whose tube closes before the room becomes ready: its token leaks |
| `MucManager.MucManager.AssociateRequest` | src/muc-manager.c:384-408 | a token is appended to the queue of its channel, which is made if missing; no other queue changes |
| `MucManager.MucManager.AnnounceTubes` | src/muc-manager.c:507-521 | the loop announces each listed tube, in order, with all tokens queued on it (a closed one as dangling, to nobody), and empties those queues |
| `MucManager.MucManager.ReadyCb` | src/muc-manager.c:490-524 | the handler takes the state where the specification of becoming ready says |
| `MucManager.MucManager.FailTubes` | src/muc-manager.c:554-561 | the loop fails every token of every listed tube, in order, and empties those queues |
| `MucManager.MucManager.JoinErrorCb` | src/muc-manager.c:527-564 | the handler takes the state where the specification of a join error says |
| `MucManager.MucManager.NewChannelFor` | src/muc-manager.c:567-615 | the new channel is in the room table under its room; if it is ready at once the ready handler has run |
| `MucManager.MucManager.RequestNewMucChannel` | src/muc-manager.c:618-727 | without a connection nothing changes; otherwise the new channel is announced at once or its token queued, and only if announcing was asked for |
| `MucManager.MucManager.CreateNewTube` | src/muc-channel.c:1676-1721 | a fresh tube is added to the tubes of its text channel |
| `MucManager.MucManager.TextRequest` | src/muc-manager.c:850-953 | a text request takes the valid state to its step, all branches, and the state stays valid |
| `MucManager.MucManager.TubeForRequest` | src/muc-manager.c:753-784 | a tube is announced with its token if the room is ready; otherwise it is listed under the text channel and its token queued on it |
| `MucManager.MucManager.TubeRequest` | src/muc-manager.c:730-785 | a tube request takes the valid state to its step, all branches, and the state stays valid |
| `MucManager.MucManager.InviteStanza` | src/muc-manager.c:1005-1124 | an invitation makes and announces a text channel unless the room has one or no connection can be made |
| `MucManager.MucManager.AddSelfToMembers` | src/muc-channel.c:187-216 | the room becomes ready, and its ready handler runs |
| `MucManager.MucManager.Disconnected` | src/muc-channel.c:1363-1383 | a connection lost before it was up is a join error; either way the channel goes |
| `MucManager.MucManager.LeaveRoom` | src/muc-channel.c:564-586 | leaving destroys a channel that is not ready and leaves a ready one to its connection |
| `MucManager.MucManager.CloseChannel` | src/muc-channel.c:1408-1425 | Close as a step of the valid state |
| `MucManager.MucManager.TubeClosedCb` | src/muc-channel.c:1642-1656 | a closed tube leaves its channel, which closes if it was hidden behind it |
| `MucManager.MucManager.AddAnnouncedTubes` | src/muc-manager.c:463-475 | each new tube of a stanza is announced with no request |
| `MucManager.MucManager.ReceivedStanza` | src/muc-channel.c:1233-1310 | a stanza makes a hidden channel reappear, clears its self-closing flag and announces the new tubes |
| `MucManager.MucManager.CancelQueuedRequests` | src/muc-manager.c:164-178 | every queued token fails once, whatever order the table is walked in |
| `MucManager.MucManager.CloseEverything` | src/muc-manager.c:181-201 | close_all as a step of the valid state, whatever order the table is walked in |
| `MucTubes.ReconciledMembership` | src/muc-channel.c:1048-1230 | after any announcement handled for D-Bus tubes, the contact is in a tube if and only if the tube was announced and it was in it before or some node that comes after the one creating it gives an acceptable bus name; other members stay |
| `MucTubes.VisitedMembership` | src/muc-channel.c:1107-1207 | the same for the loop over the nodes, by what each of them says |
| `MucTubes.TubeMade` | src/muc-channel.c:1122-1166 | for an unknown id the tube is that of the first node able to make it: its type and service, the initiator it names for D-Bus and the contact for a stream, our own bus name, not open; the contact is in it from the first node after that gives its name, under that name; without such a node there is no tube |
| `MucTubes.KnownEntered` | src/muc-channel.c:1168-1206 | a contact enters a known D-Bus tube by the first node that gives its name, which must be its own if it has the unique form, and by no other |
| `MucTubes.PublishedArrives` | src/muc-channel.c:1472-1611 | a published D-Bus tube arrives as it was sent: a receiver that does not know it has it with the initiator and service of the sender and the sender alone in it under its bus name; one that knows it enters that name |
| `MucTubes.GarbageIsNoId` | src/muc-channel.c:1006-1045 | an id that is not a number to its end is none |
| `MucTubes.AnnouncementSettles` | src/muc-channel.c:1048-1230 | handling the same announcement again changes nothing in a tube that was known before it |
| `MucTubes.AnnouncementRoundTrip` | src/muc-channel.c:1472-1539 | parsing a published node gives back type, id, service and D-Bus initiator if and only if the id fits a long and the initiator is not empty |
| `MucTubes.GeneratedIdsRoundTrip` | src/muc-channel.c:1659-1673 | for every id generate_tube_id can make, the round trip holds whatever the width of a long |
| `MucTubes.PublishThenHandleConverges` | src/muc-channel.c:1048-1230 | when both sides hold only D-Bus tubes and the sender names itself acceptably, one publish and handle leaves the sender in exactly its open tubes in the view of the receiver |
| `MucTubes.LastAnnouncementDecides` | src/muc-channel.c:1048-1230 | under the same premises, after any sequence of announcements the view of the receiver is that of the last one, whatever was opened and closed before |
| `MucTubes.ClosingLeaves` | src/muc-channel.c:1641-1656 | the announcement made while a D-Bus tube closes takes the sender out of it and leaves it in exactly its other open tubes |
| `MucTubes.ClosedStreamReappears` | src/muc-channel.c:1641-1656 | the announcement made while a tube closes names it, and a contact that does not know it makes it anew, if and only if it was an open stream tube |
| `MucTubes.MucChannel.OldDBusTubes` | src/muc-channel.c:1083-1105 | the tubes the contact is in, and whether all tubes known are D-Bus |
| `MucTubes.MucChannel.HandleNode` | src/muc-channel.c:1109-1206 | one announced tube: created if new and well formed, and joined if it is a D-Bus tube the contact is not in yet and names itself acceptably for |
| `MucTubes.MucChannel.HandleTubes` | src/muc-channel.c:1048-1230 | each tube afterwards is what the reconciliation of its old state with the nodes says; nothing changes for our own announcements, other stanza types, or when a stream tube is known; created ids are the new ones, once each |
| `MucTubes.MucChannel.RemoveNames` | src/muc-channel.c:1209-1229 | the contact leaves exactly the given tubes |
| `MucTubes.MucChannel.UpdateTubeInfo` | src/muc-channel.c:1542-1611 | no message is sent if and only if a stream tube opened by someone else is known; a message sent names each open tube once |
| `MucTubes.MucChannel.TubeClosed` | src/muc-channel.c:1641-1656 | a closing tube is announced as it is while it closes, and then goes; no message is sent if and only if a stream tube opened by someone else was known |
| `MucTubes.MucChannel.GenerateTubeId` | src/muc-channel.c:1659-1673 | the id is positive, below G_MAXINT and not in use; the loop only goes on while drawn ids are in use |
| `ContactTable.ReferencesBalance` | src/avahi-contact-manager.c:129-206 | over all runs the count of a live contact is its outside holders plus one if and only if it has services while the table is open, and an entry is in the table exactly while that count is not zero |
| `ContactTable.ListAgrees` | src/contact-manager.c:236-265 | in every reachable state before close_all a name is on the published list if and only if its live contact is found; a found contact has a resolver, resolvers are distinct, and the signals for each name alternate and end with what the list says |
| `ContactTable.ContactsAreHistory` | src/avahi-contact.c:504-864 | events alone decide: a live contact has exactly the services of its name found, not our own, with a resolver, and not removed since; it is found if and only if it was resolved after its timer last fired and its services last ran out; its timer runs if and only if a resolver failed since; and while the table is open a name with services has a contact |
| `ContactTable.ListIsHistory` | src/contact-manager.c:236-265 | so they decide the published list and the last signal about each name |
| `ContactTable.CallersHold` | src/contact-manager.c:302-420 | one event: callers hold what they took, on the contact of the name they gave, which is there after ensure_contact, less what they released; names of contacts never change |
| `ContactTable.StepKeeps` | src/avahi-contact-manager.c:129-260 | every event keeps counts, table, list and signals in agreement |
| `ContactTable.RunKeeps` | src/avahi-contact-manager.c:129-260 | the agreement holds after any run |
| `ContactTable.RemovalBalancesIff` | src/avahi-contact-manager.c:178-206 | a removal keeps the balance, and with it the whole invariant, if and only if the contact named is not in the table or had a service before it |
| `ContactTable.FailedAttachUnbalances` | src/avahi-contact-manager.c:129-206 | it can be missed: a contact held outside, a service of it whose resolver does not attach, and the removal of that service: the contact loses a reference it does not own |
| `ContactTable.FoundKeeps` | src/avahi-contact-manager.c:129-175 | a service found keeps the invariant, whether or not its resolver attaches and the contact existed |
| `ContactTable.CloseKeeps` | src/contact-manager.c:324-346 | close_all drops exactly the references for services |
| `ContactManager.ContactManager.DropRef` | src/contact-manager.c:268-280 | the last reference takes contact and table entry away |
| `ContactManager.ContactManager.CreateContact` | src/contact-manager.c:283-299 | a new contact is in the table under its name with the reference of its creator |
| `ContactManager.ContactManager.Found` | src/contact.c:748-759 | found is set once, and then the name is put on the list and signalled |
| `ContactManager.ContactManager.Lost` | src/contact.c:762-779 | found is cleared once, and then the name is taken off the list and signalled |
| `ContactManager.ContactManager.AddServiceTo` | src/avahi-contact.c:829-864 | a service is added unless known; if its resolver cannot attach nothing is added |
| `ContactManager.ContactManager.BrowserFound` | src/avahi-contact-manager.c:129-175 | a service found as a step of the valid state, all branches |
| `ContactManager.ContactManager.BrowserRemoved` | src/avahi-contact-manager.c:178-206 | a service removed, whichever contact is named: the handler takes the state where the specification says, valid afterwards if and only if the removal balances |
| `ContactManager.ContactManager.EnsureContact` | src/contact-manager.c:302-321 | the caller holds a reference on the contact of that name, which was made if missing |
| `ContactManager.ContactManager.GetContact` | src/contact-manager.c:395-420 | the contact of that name with a reference for the caller, if there is one and the table is open |
| `ContactManager.ContactManager.ReleaseContact` | src/contact-manager.c:268-280 | an outside reference is released |
| `ContactManager.ContactManager.ContactResolved` | src/avahi-contact.c:633-662 | a resolved service stops the failure timer and marks the contact found |
| `ContactManager.ContactManager.ContactFailed` | src/avahi-contact.c:810-826 | a failed resolver starts the timer unless it runs |
| `ContactManager.ContactManager.PresenceResolverFailedTimeout` | src/avahi-contact.c:798-807 | the timer marks the contact lost |
| `ContactManager.ContactManager.DisposeContact` | src/avahi-contact-manager.c:252-260 | the reference for services goes |
| `ContactManager.ContactManager.DisposeContacts` | src/contact-manager.c:191-202 | every contact with services gives up exactly that reference, whatever order the table is walked in |
| `ContactManager.ContactManager.CloseManager` | src/contact-manager.c:324-346 | close_all as a step of the valid state |
| `ContactChanges.NoStaleObserver` | src/contact.c:498-624 | after any sequence of changes, freezes, thaws, found and lost from a fresh contact, a found and unfrozen contact has nothing pending and the view of a listener that refreshes only what the connection forwards equals the contact |
| `ContactChanges.SufficientMasks` | src/connection.c:3377-3408 | a mask brings every view up to date if and only if it has the alias, status and avatar bits and at least one of real name, email and jid |
| `ContactChanges.FoundMaskSuffices` | src/contact.c:748-759 | the mask sent when a contact is found brings any view up to date, although it lacks the real name bit |
| `ContactChanges.FieldsAreHistory` | src/contact.c:514-800 | after any events the fields are what the events wrote, the contact is found if it was found after it was last lost, and frozen if it was frozen after it last thawed |
| `ContactChanges.WritesOnce` | src/contact.c:498-624 | writing what is there already signals nothing; a change of a frozen contact adds exactly its bits to those pending and signals nothing yet |
| `ContactChanges.LostIsTold` | src/contact.c:762-779 | who loses a contact is told at once, frozen or not, that it is offline, and nothing else |
| `ContactChanges.FullNameParts` | src/contact.c:514-545 | the full name of two names is both with a space between, of one that one, of none none |
| `ContactChanges.ChangeKeeps` | src/contact.c:498-511 | a changed attribute signalled with its mask leaves every disagreement covered by the pending mask |
| `ContactChanges.StepKeeps` | src/contact.c:498-800 | every event keeps: while found, disagreement is covered by pending changes, and an unfrozen contact has none pending |
| `ContactChanges.RunKeeps` | src/contact.c:498-800 | the same along any run |
| `ContactChanges.SalutContact.EmitContactChange` | src/connection.c:3377-3408 | the four branches refresh exactly the parts of the view whose bits are set |
| `ContactChanges.SalutContact.ChangeSignal` | src/contact.c:498-511 | pending and new bits go out together unless frozen, and then nothing is pending |
| `ContactChanges.SalutContact.SetRealName` | src/contact.c:514-545 | first, last and full name agree with the arguments, empty ones counting as absent; one signal if anything changed |
| `ContactChanges.SalutContact.SetAlias` | src/contact.c:548-558 | the alias, signalled if it changed |
| `ContactChanges.SalutContact.SetStatus` | src/contact.c:561-568 | the status, if it is one of the four, signalled if it changed |
| `ContactChanges.SalutContact.SetStatusMessage` | src/contact.c:571-579 | the message, signalled if it changed |
| `ContactChanges.SalutContact.SetAvatarToken` | src/contact.c:582-591 | the token, signalled if it changed |
| `ContactChanges.SalutContact.SetEmail` | src/contact.c:594-605 | the email address, empty counting as absent, signalled if it changed |
| `ContactChanges.SalutContact.SetJid` | src/contact.c:608-624 | the jid, empty counting as absent, signalled if it changed |
| `ContactChanges.SalutContact.MarkFound` | src/contact.c:748-759 | a contact found anew signals everything and has nothing pending |
| `ContactChanges.SalutContact.MarkLost` | src/contact.c:762-779 | status and message are reset, and a found contact signals its status |
| `ContactChanges.SalutContact.FreezeChanges` | src/contact.c:782-787 | from here on changes are held back |
| `ContactChanges.SalutContact.ThawChanges` | src/contact.c:790-800 | what was held back goes out |
| `ContactChanges.SalutContact.Resolved` | src/avahi-contact.c:633-795 | after a service is resolved the fields are those the record describes, and the view of the listener equals them |
| `ContactChanges.SalutContact.SetStatusNamed` | src/avahi-contact.c:671-683 | a known status name sets its status, another one or none leaves it |
| `ContactChanges.SalutContact.UpdateAlias` | src/avahi-contact.c:589-608 | the alias is the nick, else the full name, else none |
| `PresenceRecord.PresenceRoundTrip` | src/avahi-self.c:124-363 | after any sequence of updates of our presence record, a contact that resolves it, whatever it knew of us, has our status, message and avatar token, our names, email address and jid (empty ones counting as absent), and as alias our nick or, without one, our full name |
| `PresenceRecord.RunSays` | src/avahi-self.c:124-363 | after any sequence of updates the record says what we say, attribute by attribute |
| `PresenceRecord.NamesFit` | src/contact.c:514-545 | the full name of a contact fits its names after any events |
| `PresenceRecord.PresenceService.constructor` | src/avahi-self.c:124-178 | the record announced, line by line |
| `PresenceRecord.PresenceService.SetOwnPresence` | src/avahi-self.c:261-279 | status and message are written, a missing message taken away |
| `PresenceRecord.PresenceService.SetOwnAlias` | src/avahi-self.c:281-290 | the nick becomes the alias |
| `PresenceRecord.PresenceService.SetOwnAvatar` | src/avahi-self.c:343-363 | the avatar token is written |
| `PresenceRecord.PresenceService.RemoveOwnAvatar` | src/avahi-self.c:292-304 | the avatar token is taken away |
| `AvatarQueue.RequestsConserved` | src/contact.c:427-472 | in every reachable state each avatar request was answered or is queued, never both, as often as it was made, callbacks that request again included; requests wait if and only if a browser runs |
| `AvatarQueue.DisposalAnswersAll` | src/avahi-contact.c:456-484 | after any run, disposal runs to its end, and then has answered all that was ever asked, if and only if no waiting callback asks again; otherwise the retrieval uses the client that disposal has cleared |
| `AvatarQueue.DisposalCrashes` | src/avahi-contact.c:371-412 | a run that gets there: an avatar announced, and one request whose callback asks again |
| `AvatarQueue.RunInOrder` | src/contact.c:427-444 | a flush runs its callbacks in the order the requests were made, with the data of this flush, whatever they ask for meanwhile |
| `AvatarQueue.ResultAnswersWaiting` | src/avahi-contact.c:330-368 | what the browser reports goes to all requests that wait, in their order |
| `AvatarQueue.AnswersInOrder` | src/contact.c:427-472 | over any run, callbacks run strictly in the order of all requests if no flush happens while a waiting callback before the last one asks again and the avatar is no longer announced or the next retrieval does not attach; when requests can be told apart, only then |
| `AvatarQueue.OnlyResultsGive` | src/contact.c:427-472 | callbacks are given an avatar only when the browser comes back with one, and then once for each request that waits |
| `AvatarQueue.ChangedTokenRestarts` | src/contact.c:348-360 | with requests waiting a changed token tries another browser, and if that attaches they wait on in their order; the same token, or nobody waiting, changes nothing else |
| `AvatarQueue.TokenIsLast` | src/contact.c:348-360 | the token is the last one announced, on any run |
| `AvatarQueue.RequestQueued` | src/contact.c:447-472 | a request that is not answered at once is appended, and brings about a retrieval if and only if it is the first |
| `AvatarQueue.BrowserOutlivesContact` | src/contact.c:302 | disposing of a contact with requests waiting answers them but leaves the browser running |
| `AvatarQueue.StepKeeps` | src/contact.c:348-472 | every event keeps the balance of requests, and a queue if and only if a browser |
| `AvatarQueue.RequestKeeps` | src/contact.c:447-472 | a request is answered or queued once, also when its retrieval fails at once |
| `AvatarQueue.RequestTries` | src/contact.c:447-472 | while the contact has its discovery client and an avatar is announced, a request leaves an empty queue empty if and only if the retrievals it brings about all fail |
| `AvatarQueue.AvatarRequests.GetAvatar` | src/contact.c:447-472 | answered at once without a token; otherwise queued, and retrieved if the queue was empty |
| `AvatarQueue.AvatarRequests.RetrieveAvatar` | src/avahi-contact.c:371-412 | the old browser is dropped; a new one runs, or all requests are flushed |
| `AvatarQueue.AvatarRequests.AvatarRequestFlush` | src/avahi-contact.c:316-327 | the browser is dropped and the queue flushed |
| `AvatarQueue.AvatarRequests.FlushRequests` | src/contact.c:427-444 | the loop over the detached list, against its recursive specification |
| `AvatarQueue.AvatarRequests.ChangeAvatarToken` | src/contact.c:348-360 | a changed token restarts retrieval if anybody waits |
| `AvatarQueue.AvatarRequests.AvatarResult` | src/avahi-contact.c:330-368 | a record, the end or the failure of the browser flushes the queue with its data or none |
| `AvatarQueue.AvatarRequests.DisposeContact` | src/avahi-contact.c:456-484 | disposal clears the discovery client, flushes the queue and leaves the browser alone |
| `Sidecars.CallsConserved` | src/connection.c:3913-4130 | in every reachable state each EnsureSidecar call was answered or waits, as often as it was made; waiting lists are not empty, installed and pending interfaces are disjoint, and while connected exactly the pending interfaces have one creation in flight |
| `Sidecars.QuietMeansAnswered` | src/connection.c:3913-4130 | once connected with nothing in flight, or disconnected, every call has been answered |
| `Sidecars.AnswerIsHistory` | src/connection.c:3913-4130 | events alone decide: on any run a call made once has been given exactly the one reply they say, path and id or error, or waits for the interface they say |
| `Sidecars.InterfaceIsHistory` | src/connection.c:3913-4130 | interfaces do not meddle with each other: the events naming one and those of the connection decide which sidecar it has installed and which calls wait for it, latest first |
| `Sidecars.InstalledIffCreated` | src/connection.c:3960-3973 | while connected a sidecar is installed for an interface if and only if a creation came back with it for that very interface |
| `Sidecars.WaitingAnsweredInOrder` | src/connection.c:3967-3976 | a creation that comes back is answered to those who wait in the order in which they are listed |
| `Sidecars.PathSpells` | src/connection.c:3855-3865 | the path is below that of the connection, the interface with its dots as slashes |
| `Sidecars.LateCreationIsDropped` | src/connection.c:3930-3939 | a creation that finishes after disconnection answers nobody and installs nothing |
| `Sidecars.PathsAreInstalled` | src/connection.c:3960-3973 | every path an event gives out is the path of a sidecar installed then, which is for the very interface the path names |
| `Sidecars.PathsDistinct` | src/connection.c:3855-3865 | no two interfaces share an object path |
| `Sidecars.SilentFailureStrands` | src/connection.c:3954-3958 | a creation that fails without an error breaks the protocol if and only if somebody waits for it |
| `Sidecars.StepKeeps` | src/connection.c:3913-4130 | every event keeps the invariant of the protocol |
| `Sidecars.StepAccounts` | src/connection.c:3913-4130 | every event keeps the account of calls made, answered and waiting |
| `Sidecars.SidecarTable.Ensure` | src/connection.c:3989-4069 | all six branches of a call |
| `Sidecars.SidecarTable.CreateSidecarCb` | src/connection.c:3913-3986 | all branches of a finished creation, a plugin for the wrong interface included |
| `Sidecars.SidecarTable.RequestPending` | src/connection.c:4117-4126 | one creation more for each pending interface |
| `Sidecars.SidecarTable.Connected` | src/connection.c:4112-4129 | the connection comes up |
| `Sidecars.SidecarTable.FailPending` | src/connection.c:4094-4107 | every waiting call fails once, whatever order the table is walked in |
| `Sidecars.SidecarTable.Disconnected` | src/connection.c:4084-4111 | the connection goes down: both tables are empty |
| `DiscoRequests.RequestsTracked` | src/disco.c:121-160 | in every reachable state before disposal the list is exactly the outstanding requests; each request made is live or was freed once; its callback ran at most once and not before the reply |
| `DiscoRequests.RequestsAreHistory` | src/disco.c:121-160 | events alone decide, in every reachable state and whatever callbacks do: a live request is cancelled if and only if it was cancelled itself, its object died or the disco object was disposed of since it was made; its callback has run if and only if the reply came before any of these; it is gone if and only if the reply came or the porter let it go when it was told to stop |
| `DiscoRequests.ReplyAnswersIff` | src/disco.c:459-505 | a reply runs the callback if and only if the request was not cancelled, whatever the callback itself makes, cancels or disposes of; the record is freed then |
| `DiscoRequests.SilencedForever` | src/disco.c:459-505 | once a request is cancelled or gone its callback never runs again, in any continuation |
| `DiscoRequests.Silences` | src/disco.c:152-160 | cancelling, the death of the bound object and disposal silence a request |
| `DiscoRequests.PerformKeeps` | src/disco.c:402-590 | whatever outside code does keeps the invariant and runs no callback, requests completing synchronously inside the disposal and notification loops included |
| `DiscoRequests.OrphanAllKeeps` | src/disco.c:423-429 | the disposal loop reaches only records that are still there, detaches and cancels each, and leaves its list alone |
| `DiscoRequests.NotifyAllKeeps` | src/disco.c:152-160 | when an object dies its requests are cancelled and the list stays exact |
| `DiscoRequests.DiscoTable.DeleteRequest` | src/disco.c:121-149 | the record is freed, and leaves the list if it is still attached |
| `DiscoRequests.DiscoTable.CancelCancellable` | src/disco.c:152-160 | a request is cancelled, and freed if the porter comes back at once |
| `DiscoRequests.DiscoTable.NotifyDeleteRequest` | src/disco.c:152-160 | the weak reference is dropped and the request cancelled |
| `DiscoRequests.DiscoTable.ObjectDies` | src/disco.c:152-160 | all requests bound to a dead object are notified |
| `DiscoRequests.DiscoTable.Request` | src/disco.c:522-574 | a new request is live, outstanding and in the list |
| `DiscoRequests.DiscoTable.CancelRequest` | src/disco.c:577-590 | a listed request is cancelled |
| `DiscoRequests.DiscoTable.DisposeDisco` | src/disco.c:402-435 | disposal as one action, its loop included |
| `DiscoRequests.DiscoTable.RequestSentCb` | src/disco.c:459-505 | the reply handler, its callback doing anything in between |
| `OlpcKey.SetsRoundTripIff` | src/self.c:876-920 | keys set through self.c, which stores the new key before it publishes it, leave exactly the parts of the last key if and only if no earlier key took more parts |
| `OlpcKey.StoredFirstIff` | src/self.c:876-920 | for one update: right if and only if the new key takes no fewer parts; otherwise a reader gets the new key followed by the rest of the old one |
| `OlpcKey.PublishesRoundTripIff` | src/avahi-self.c:386-440 | for every sequence of updates, whatever keys are stored when they are made, the record ends with exactly the parts of the last key if and only if no older part is left over by these counts, and then reading it gives that key back byte for byte; when the stored key is always the one last published this holds (UpdatesRoundTrip) |
| `OlpcKey.PublishIff` | src/avahi-self.c:386-440 | an update leaves exactly the parts of the new key if and only if the new key or the length taken for the old one covers every part there was |
| `OlpcKey.AnnounceRoundTrip` | src/avahi-self.c:152-168 | the first announcement: exact parts, and the key is read back |
| `OlpcKey.HeldKeyIsRead` | src/avahi-contact.c:740-768 | a record with exactly the parts of a key gives it back byte for byte, and nothing if and only if it is empty |
| `OlpcKey.PartFits` | src/avahi-self.c:156-168 | every key=value string of a part is at most 255 bytes long, as section 6.1 of RFC 6763 demands |
| `OlpcKey.AvahiSelf.SetParts` | src/avahi-self.c:414-427 | the loop writes the parts of a key and counts them |
| `OlpcKey.AvahiSelf.CreateTxtRecord` | src/avahi-self.c:152-168 | the announced record has the parts of the stored key |
| `OlpcKey.AvahiSelf.SetOlpcProperties` | src/avahi-self.c:386-440 | the parts of the new key are written and those beyond it, up to the length taken for the old one, removed |
| `OlpcKey.AvahiSelf.SetFromConnection` | src/self.c:876-920 | the key is stored, then published |
| `OlpcKey.ReadKey` | src/avahi-contact.c:740-768 | the loop joins the parts up to the first gap |
| `ProgressThrottle.CurrentOrPending` | src/file-transfer-channel.c:1053-1134 | for every transfer, every sequence of chunks and any clock, the count in the last signal is current or exactly one timeout is pending, there is never more than one, its delay is at most 1000 ms if and only if the interval computed when it was set is not the smallest gint, and a signal is final if and only if it reports the whole size |
| `ProgressThrottle.BytesAreMoved` | src/file-transfer-channel.c:1082-1134 | on any run the count is the sum of the chunks, as a guint64, and so is the count in the last signal unless a timeout is pending |
| `ProgressThrottle.SignalledAtOnce` | src/file-transfer-channel.c:1105-1133 | a chunk that does not end the transfer is not signalled at once while a timeout is pending or within a second of the last signal, and is if that is 1.002 seconds old |
| `ProgressThrottle.TimerDelay` | src/file-transfer-channel.c:1127-1133 | the delay is at most 1000 ms if and only if the computed interval is not the smallest gint; then it is almost 25 days |
| `ProgressThrottle.TimerDelayLost` | src/file-transfer-channel.c:1127-1133 | a run of two chunks of one byte, the clock set back by the wrong amount between them, ends with a timeout of almost 25 days |
| `ProgressThrottle.SignalsSpaced` | src/file-transfer-channel.c:1082-1134 | for every transfer, with a clock that does not run backwards, a signal that does not end the transfer comes at least 999001 microseconds after the one before |
| `ProgressThrottle.GapIsReached` | src/file-transfer-channel.c:1118-1133 | no larger distance is kept: a run of two chunks and a timeout with two signals exactly that far apart |
| `ProgressThrottle.MillisClose` | src/file-transfer-channel.c:1118-1123 | truncating division is less than a millisecond off the time since the last signal, either way |
| `ProgressThrottle.FileTransferChannel.EmitProgressUpdate` | src/file-transfer-channel.c:1053-1068 | the count is signalled, the time taken and a pending timeout removed |
| `ProgressThrottle.FileTransferChannel.EmitProgressUpdateCb` | src/file-transfer-channel.c:1071-1079 | the timeout signals the count |
| `ProgressThrottle.FileTransferChannel.TransferredChunk` | src/file-transfer-channel.c:1082-1134 | a chunk is counted and signalled at once, later or by a pending timeout |
| `Capabilities.InternedRefinesPlain` | src/capability-set.c:408-636 | for every sequence of operations on any number of sets sharing the growing pool, interned sets stand for what the same operations make of plain sets of strings, and every answer is the same |
| `Capabilities.StepRefines` | src/capability-set.c:408-636 | one operation, aliased arguments and strings never interned included |
| `Capabilities.SetOps` | src/capability-set.c:422-499 | union, intersection and difference of handles are those of strings |
| `Capabilities.SetTests` | src/capability-set.c:581-636 | inclusion, equality and overlap of handles are those of strings |
| `Capabilities.QuirksFromTheWire` | src/capability-set.c:364-405 | decoding any stanza yields no quirk but omits-content-creators, and that one if and only if some identity is of a Gabble which omits them |
| `Capabilities.DecodeHas` | src/capability-set.c:364-405 | what a stanza decodes to, string by string |
| `Capabilities.OmitsIff` | src/capability-set.c:181-215 | a printed version N counts if and only if 16 <= N < 29 as a 32-bit int, after saturation at LONG_MAX; below 2^31 that is N itself |
| `CStrings.ParseGarbage` | src/capability-set.c:181-215 | strtol reads the digits of a printed number, up to saturation at LONG_MAX, and stops where they do |
| `CStrings.ParseSigned` | src/muc-channel.c:1006-1045 | it skips white space and understands one sign, a negative number saturating at LONG_MIN |
| `Capabilities.DecodeEncode` | src/disco.c:280-366 | decoding the reply a set is sent as (section 3.1 of XEP-0030) gives back the set less its quirks |
| `Capabilities.CapabilitySet.Add` | src/capability-set.c:502-513 | the set of strings gains the string |
| `Capabilities.CapabilitySet.Remove` | src/capability-set.c:516-530 | the set of strings loses the string; true if and only if it had it |
| `Capabilities.CapabilitySet.Update` | src/capability-set.c:422-433 | union of the sets of strings |
| `Capabilities.CapabilitySet.Intersect` | src/capability-set.c:434-475 | intersection, by collecting and then deleting; nothing changes for the set itself |
| `Capabilities.CapabilitySet.Exclude` | src/capability-set.c:477-499 | difference; the set itself is emptied |
| `Capabilities.CapabilitySet.Clear` | src/capability-set.c:533-540 | the empty set |
| `Capabilities.CapabilitySet.Has` | src/capability-set.c:560-577 | membership, false for strings never interned |
| `Capabilities.CapabilitySet.HasOne` | src/capability-set.c:581-601 | true if and only if the sets of strings overlap |
| `Capabilities.CapabilitySet.AtLeast` | src/capability-set.c:605-625 | true if and only if the other set of strings is included |
| `Capabilities.CapabilitySet.Equals` | src/capability-set.c:628-636 | true if and only if the sets of strings are equal |
| `Capabilities.CapabilitySet.Features` | src/capability-set.c:640-660 | each string of the set once, quirks left out |
| `Capabilities.CapabilitySet.ReadChild` | src/capability-set.c:364-405 | what one child of the stanza decodes to is added |
| `Capabilities.CapabilitySet.ReadStanza` | src/capability-set.c:364-405 | the set of strings is what the stanza decodes to |
| `FtCapabilities.ServicesCompose` | src/ft-manager.c:642-728 | for every set and every list of filters, feeding them in and reading the classes back gives: a class without a service once if and only if the set offered file transfer before or some filter is for contact file transfers, and it has both metadata properties allowed or none according to whether the metadata namespace is there by then; the class of a service once if and only if its namespace was there before or some client receives it; no other class |
| `FtCapabilities.AdvertisedClasses` | src/connection.c:2214-2242 | for every list of clients, the set advertised gives the base class with both properties exactly once, even if no client handles files, the class of each service some client receives exactly once, and no others |
| `FtCapabilities.AdvertisedIsUnion` | src/caps-channel-manager.c:95-125 | what is advertised is the union of what is always advertised and what the tubes and file transfer managers add for each client, so the order of clients, filters and managers does not matter |
| `FtCapabilities.AdvertisedService` | src/connection.c:2214-2242 | a service namespace is advertised if and only if some client receives that service: neither the tubes of clients nor what is always advertised makes one |
| `FtCapabilities.AdvertisedTubes` | src/tubes-manager.c:1170-1217 | the namespace of a stream or D-Bus tube service is advertised if and only if some client handles contact tubes of that kind and service |
| `FtCapabilities.OrderIsIrrelevant` | src/ft-manager.c:676-728 | the order and repetition of filters do not matter |
| `FtCapabilities.PeerSeesServices` | src/disco.c:280-366 | for every list of clients, a peer that decodes our discovery reply has the very set advertised, both out of band namespaces are among the features sent, and the classes it reads are those advertised |
| `FtCapabilities.ContactClassTimes` | src/ft-manager.c:656-673 | a contact set gives each class at most once: the base class if and only if it offers file transfer or has no capabilities, a service class if and only if its namespace is there |
| `FtCapabilities.RepresentsService` | src/ft-manager.c:712-726 | in any set, the namespace of a service is there afterwards if and only if it was before or some filter for it is not locally requested |
| `FtCapabilities.RepresentsFt` | src/ft-manager.c:688-705 | in any set, each of the three base namespaces is there afterwards if and only if it was before or some filter is for contact file transfers, and file transfer is offered likewise |
| `FtCapabilities.RepresentClient` | src/ft-manager.c:676-728 | the loop adds what each filter adds |
| `FtCapabilities.DupSelfAdvertisedCaps` | src/capabilities.c:39-63 | the set with the five namespaces that are always advertised |
| `FtCapabilities.UpdateCapabilities` | src/connection.c:2214-2242 | from that set, both managers add what each client handles |
| `FtCapabilities.RepresentTubeClient` | src/tubes-manager.c:1219-1236 | the loop adds what each filter adds for tubes |
| `FtCapabilities.AddTubeFilter` | src/tubes-manager.c:1170-1217 | one filter, all branches |
| `FtCapabilities.AppendServices` | src/ft-manager.c:642-653 | one class for each handed out namespace with the service prefix, named by the rest, in order |
| `FtCapabilities.AddFilter` | src/ft-manager.c:688-726 | one filter, all branches |
| `FtCapabilities.GetContactCaps` | src/ft-manager.c:642-673 | the classes appended for a contact: the base class and those of its services, each exactly once, in the order its set is walked |
| `RoomResolvers.RoomsTracked` | src/avahi-roomlist-manager.c:144-249 | over every sequence of services found and removed, the array of a room holds each service as often as it was found and attached less the removals that met one, no array is empty, and the signals for a room alternate and end with whether it is listed |
| `RoomResolvers.ListedWhilePresent` | src/avahi-roomlist-manager.c:344-355 | a room is listed if and only if one of its services is present |
| `RoomResolvers.RemoveFastTimes` | src/avahi-roomlist-manager.c:232 | removal that moves the last element into the gap loses exactly the removed one |
| `RoomResolvers.StepKeeps` | src/avahi-roomlist-manager.c:144-249 | every event keeps arrays non-empty and signals in agreement with the list |
| `RoomResolvers.StepCounts` | src/avahi-roomlist-manager.c:144-249 | an event changes the count of a service by what it says and leaves all others |
| `RoomResolvers.RoomlistManager.BrowserFound` | src/avahi-roomlist-manager.c:144-181 | a service found, attached or not |
| `RoomResolvers.RoomlistManager.BrowserRemoved` | src/avahi-roomlist-manager.c:184-249 | the index loop and the swapping removal |
| `RoomResolvers.RoomlistManager.GetRooms` | src/avahi-roomlist-manager.c:336-355 | each listed room once |

## Left out

- Channel objects are values in tables keyed by identity, not heap objects: aliasing between them is not modelled.
- Channel closed and destroyed signals on the bus, channel properties and everything else of D-Bus and GObject.
- Stream identifiers, bytestream senders and the parameters inside tube announcements; the unique name a contact's bus name is
  compared with is a parameter.
- What the freed memory of a tube that closed while it waited holds. Announcing the tube counts as losing its tokens; a join
  error, which uses the pointer only to look them up, fails them.
- What a NULL discovery client leads to: the run of the contact stops there.
- Room members, invitations sent, chat messages, and the exchange with the multicast transport.
- Contact attributes that are not among alias, status, message, avatar token, names, email and jid; OLPC attributes other
  than the key; activities.
- ContactChanges.SalutContact.Resolved: leaves out the addresses, capabilities and OLPC attributes that `contact_resolved_cb`
  writes as well, and the change bits of the last.
- The namespaces of SI, tubes and out of band data are constants of the Wocky library, which is not part of this model; their
  values are those of `src/namespaces.h` and `tests/twisted/ns.py`.
- The set advertised before, its comparison with the new one, and the data forms of clients, in `UpdateCapabilities`.
- The Bonjour backend, which follows the same reference rule with another resolver record.
- Whether the avatar data matches the announced token: the hash is not checked by the source either.
- The refcounts of sidecar objects and the object path prefix of a particular connection, for which a constant stands.
- In the presence record: the port, the record version, capabilities and OLPC attributes, and a failing announcement.
- Stanza building and sending, error details of discovery replies, and the hash of XEP-0115.
- Data forms in discovery replies: they are children without meaning for the decoder here.
- The file transfer state machine, its sockets and its data; only the progress signals are modelled.
- A count of live timeouts stands for the event sources of the main loop.
- Reference counts of interned strings: the pool only grows.
- Comparing data forms, alias fallbacks, the shutdown timer, the IM manager and simple accessors.
- ContactTable.ReferencesBalance: on runs whose removals name a contact that has a service, which the source does not check;
  RemovalBalancesIff gives the exact condition for each removal.
- OlpcKey.UpdatesRoundTrip: the case of PublishesRoundTripIff in which the stored key is always the one last published, as for
  calls to the Avahi function alone; SetsRoundTripIff has the exact condition for calls through self.c.
