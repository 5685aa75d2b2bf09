# Verified model of the syslog relay core

A Dafny model of a UDP-to-DTLS syslog relay: the relay itself (`crates/core`) and the login,
session and logout tables that guard its web interface (`crates/cli`).

## What is modelled

**The relay** (`RelayModel`, `RelayState`, `RelayMachine`). A listener thread and a sender
thread share one locked state: queue, counters, source table and stop deadline. `RelayState.State`
is that state as a mutable object; each of its methods is one lock section and is proved to do
exactly what `RelayModel` says on values. `RelayMachine` lets the listener, the sender, `stop`,
the clock and the name resolver interleave at every lock release and every call to the
transport. Between lock sections the sender keeps private state (session, pending frame, retry
delay, next send time, attempts, jitter), and a program counter says where in its loop it is.
Outcomes of lookups, connections, polls and writes, and the passing of time, are chosen freely;
the monotonic clock only moves forward. A history that no step reads records arrivals with their
verdicts, departures with their fates, stop requests, frames taken and every call on the
transport, each with how much of the other records there was at that moment. `RelayRuns` states
the main results for every world that any run reaches, and for every continuation of such a run;
`RelayLedger` (queue and accounts), `RelayProtocol` (transport discipline), `RelayTiming` and
`RelayWaiting` and `RelayJitter` (pacing, retry delays, waiting), `RelaySources` (per-source accounts),
`RelayRecord` (why each decision was taken) and `RelayStatus` (published status, pauses) prove one
group of invariants each. `RelayRate` constructs the busiest run, and `RelayProgress` a way on
from every reachable world.

**Traffic windows** (`Rings`, `SourceTable`, `Sources`). Bucket arrays updated in place with lazy
reset, a bounded table of sources, and the agreement of every figure shown with counting over the
complete, unbounded log of events.

**Framing and recognition** (`Framing`, `Grammar`, `Recogniser`). A declarative grammar of
RFC 5424 messages (section 6) as trees with a printer; the scanner with its cursor loops, proved to
accept exactly the printed well-formed trees; and octet-count frames (section 5.4 of RFC 6012) with
the receiver that undoes them. The RFC 3339 reader and UTF-8 validity are two arbitrary predicates
(`Grammar.Texts`), used alike by grammar and scanner.

**Login tables** (`AuthModel`, `AuthState`, `AuthRuns`, `AuthLive`, `AuthExact`, `Groups`). Three
bounded tables of expiring single-use keys behind one gate, and the group decision on claims. What
the tables hold and what each request is answered is stated through a history of events alone. Whether the
provider vouches for a user is an input; so is each random key, which is assumed never drawn
before. Each request reads the clock three times: when expired entries are pruned, when a flow or
its expiry is looked at, and when an entry is inserted.

## Where code, documentation and standards differ

- *Rate.* The pause between writes is one second divided by the configured rate, rounded to a
  nanosecond. If that rounding goes down (three messages a second: 333 333 333 ns), some run puts
  one message more than configured into a second; no run does if and only if it does not go down
  (`RelayRate.RateCapIsExact`, `RelayRate.RateCapFailsForThree`). The spacing of writes by the
  interval holds always (`RelayRuns.AlwaysPaced`).
- *Group diagnostics.* `group_check` reports a match exactly when `has_group` grants access if and
  only if the required group is nonempty and has no comma (`Groups.CheckAgreesExactly`). The comma
  list and the array encoding decide alike if and only if the required group is nonempty
  (`Groups.JoinedDecidesExactly`).
- *PARAM-VALUE.* A backslash before any other character than `"`, `\` or `]` is an ordinary
  character, as section 6.3.3 of RFC 5424 has a receiver treat it; the grammar gives it an atom of
  its own, which keeps each message's tree unique.
- *Empty messages.* MSG-LEN in RFC 6012 starts with a nonzero digit; `frame` keeps this exactly
  for nonempty messages (`Framing.NoLeadingZero`), and the recogniser admits no empty one.
- *Message ceiling.* The repository's README speaks of an input maximum of 8192, which is the
  default; the code accepts any maximum up to 16378, and that limit is the one modelled.

## Model

| member | source | states |
|---|---|---|
| RelayRuns.AlwaysConserved | crates/core/src/relay.rs:146-241 | In every reachable world, whatever interleaves (datagrams racing `stop`, arrivals after the drain): received = forwarded + dropped + queued, received is the number of datagrams that arrived, queue depth is the queue's length, and the five drop reasons add up to dropped |
| RelayRuns.AlwaysBounded | crates/core/src/relay.rs:176-190 | `queue_bytes` is the sum of queued payload lengths and within its limit, depth is within its limit, every queued message is valid, small enough, from a permitted source and frames into one record, and in-flight implies a nonempty queue |
| RelayRuns.AlwaysFifo | crates/core/src/relay.rs:375-402 | Admitted messages are the departed ones in order followed by the queue; the frames reported sent are those of the forwarded messages in order, with at most the front's frame ahead of its accounting; accounting a sent frame always meets a nonempty queue with that frame's message in front |
| RelayRuns.AlwaysJudged | crates/core/src/relay.rs:142-189 | Over every run a datagram is admitted if and only if its source is permitted, no stop was requested before, its size and grammar are right, and the messages admitted but not yet departed leave room in number and bytes; and it is refused for the first of these that fails, in that order |
| RelayRuns.AlwaysFated | crates/core/src/relay.rs:379-450 | Over every run a message is forwarded right after its own frame was sent; is too large only if its frame exceeds the budget of the session then open and just polled; and is dropped at shutdown only after a stop request, with the session closed and, without a listener failure, no earlier than the drain time after the first call of `stop` |
| RelayRuns.AlwaysTakesFront | crates/core/src/relay.rs:379-391 | After a successful poll, a due front message within the open session's budget is taken and stays queued, a due one beyond it leaves as too large, and otherwise the queue is left alone |
| RelayRuns.AlwaysDeadline | crates/core/src/relay.rs:92-98 | The published deadline follows from the recorded stop requests: none without one, the first call of `stop` plus the drain time without a listener failure, else the last failure |
| RelayRuns.AlwaysLeaves | crates/core/src/relay.rs:310-317 | The sender leaves its loop exactly at the loop head with a stop requested and the queue empty or the deadline passed, or after a failed connection with the deadline passed; the listener exactly when a stop was requested |
| RelayRuns.AlwaysTimesWrites | crates/core/src/relay.rs:403-409 | A write that blocks ends its session exactly when more than the timeout has passed since its frame was taken |
| RelayRuns.AlwaysGivesUp | crates/core/src/relay.rs:373-417 | A session is given up only after a failed poll or write, or for that timeout |
| RelayRuns.AlwaysLooksUp | crates/core/src/relay.rs:267-297 | Addresses are dialled as soon as the lookup brings them; the attempt fails exactly when the relay gives up, the lookup fails or brings none, or the timeout passes; only a lookup that ended is started anew |
| RelayRuns.AlwaysAsks | crates/core/src/relay.rs:251-267 | A lookup is started unless one is under way, and waited for during the handshake timeout |
| RelayRuns.AlwaysIdles | crates/core/src/relay.rs:427-436 | The short pauses: ten milliseconds while a write is to be repeated or nothing is queued, else no longer than until the next write is due |
| RelayRuns.AlwaysBrief | crates/core/src/relay.rs:215-222 | In every reachable world a short pause ends within ten milliseconds and the wait for a lookup within the handshake timeout |
| RelayRuns.AlwaysInFlight | crates/core/src/relay.rs:387-421 | The in-flight mark stands exactly while a taken frame is being written, and a lost session's mark goes before its failure is counted |
| RelayRuns.AlwaysCountsRetries | crates/core/src/relay.rs:353-358 | Retries counted and failure pauses begun are equally many |
| RelayRuns.AlwaysMarksPermitted | crates/core/src/relay.rs:143-151 | A snapshot row is marked allowed exactly if the source is permitted: any source, or a listed address of the same host |
| RelayProgress.AlwaysDeliverable | crates/core/src/relay.rs:309-437 | No reachable world is stuck: with a message queued and no stop requested, some continuation lets the front message leave, and sends it unless the session already open is too small for it |
| RelayRecord.DeadlineMeans | crates/core/src/relay.rs:92-98 | The deadline of a list of stop requests in closed form |
| RelayRecord.PermittedIsAllowed | crates/core/src/relay.rs:130-145 | The allowlist test on canonical addresses admits exactly the addresses of listed hosts |
| RelayRuns.CollectorDecodes | crates/core/src/relay.rs:380-402 | Reading everything sent as an octet-counted stream yields exactly the forwarded payloads, in order, across reconnects |
| RelayRuns.AlwaysTallied | crates/core/src/relay.rs:146-190 | Every counter (received, forwarded, each drop reason) is the number of arrivals or departures with that verdict or fate |
| RelayRuns.AlwaysPerSource | crates/core/src/sources.rs:22-57 | Tracked addresses are exactly those first seen among the first 256, never more than 256; each one's received = forwarded + dropped + still queued; tracked receptions plus untracked datagrams are all receptions |
| RelayRuns.AlwaysExactWindows | crates/core/src/sources.rs:58-88 | In every reachable world a source's snapshot row shows its receptions, forwardings and drops, and windows counted in whole seconds since the start over its whole forwarding history: exact per second and per minute, the 24-hour figure between the counts aged at most 86340 s and under 86400 s, and per-second <= per-minute <= 24h <= forwarded |
| RelayRuns.AlwaysDisciplined | crates/core/src/relay.rs:373-425 | The whole sequence of transport calls obeys the session contract, dials wait, write retries stop at the timeout, and at most one lookup thread is outstanding |
| RelayRuns.AlwaysPaced | crates/core/src/relay.rs:379-401 | Successful writes i and j of a run are at least (j - i) intervals apart, across reconnects and retries; a window of length W holds at most W / interval + 1 of a run's consecutive writes |
| RelayRuns.AlwaysBackedOff | crates/core/src/relay.rs:353-369 | The delay is min(initial * 2^k, max) with k the failures since the last success; every failure pause ever taken has the length its k demands; the jitter state is never zero |
| RelayRuns.AlwaysJittered | crates/core/src/relay.rs:359-367 | Every pause after a failed connection in closed form: min(3 * delay / 4 + draw mod (delay / 2 + 1), max), the draw being the seed's xorshift sequence after as many steps as connections failed |
| RelayRuns.AlwaysLater | crates/core/src/relay.rs:92-111 | However a run continues: histories grow, tracked sources stay tracked, a stop request and an expired deadline stand, the queue of a stopping relay only loses messages from its front, and a finished sender does nothing more |
| RelayRuns.ShutdownIsFinal | crates/core/src/relay.rs:438-453 | A finished sender implies a stop request; from then on, in every continuation, the queue is empty, received = forwarded + dropped, nothing more is forwarded, the transport is not called and no session is left open |
| RelayRuns.FateStands | crates/core/src/relay.rs:184-241 | The i-th admitted message is, at any later point, the i-th departed one or still at its place in the queue; once decided its fate never changes |
| RelayRuns.StepInv | crates/core/src/relay.rs:127-453 | One atomic step of any thread, of the clock or of the resolver keeps the conjunction of all invariants |
| RelayRate.RateCapIsExact | crates/core/src/relay.rs:400-401 | No second of any run has more writes than configured if and only if the nanosecond interval times the rate reaches one second; otherwise a reachable run exceeds it |
| RelayRate.RateCapFailsForThree | crates/core/src/relay.rs:400-401 | At three messages a second a reachable run has four writes within one second |
| RelayRate.Busiest | crates/core/src/relay.rs:309-436 | The sender can in fact keep up one write per interval for any number of writes |
| RelayLedger.Conservation | crates/core/src/relay.rs:223-241 | Conservation follows from the admitted, departed and queued messages and the tallies |
| RelayProtocol.BlockedWriteIsRepeated | crates/dtls-openssl/src/lib.rs:288-289 | After a write that would block, the next call is the identical write on the same session or its closing: no poll in between, no other bytes |
| RelayProtocol.FailureIsClosed | crates/core/src/relay.rs:414-417 | A failed poll or write is followed at once by closing that session |
| RelayProtocol.NeverUsedAfterClose | crates/core/src/relay.rs:414-440 | A closed session is never polled, written to or closed again |
| RelayProtocol.WriteFitsItsSession | crates/dtls-openssl/src/lib.rs:282-287 | Every frame written is nonempty and within the plaintext budget of the session it goes to, which is the last one connected and still open: the size guard never fires |
| RelayProtocol.DialsRotate | crates/core/src/relay.rs:325-326 | The n-th dial goes to address n modulo the number of resolved addresses |
| RelayWaiting.DialsWait | crates/core/src/relay.rs:215-222 | No connection is attempted before the failure pause preceding it is over, and a blocked write is repeated only while its timeout had not passed when it last blocked |
| RelayTiming.JitterStaysNonzero | crates/core/src/relay.rs:359-361 | The xorshift step maps nonzero words to nonzero words |
| RelayTiming.JitterRange | crates/core/src/relay.rs:362-367 | A connection-failure pause lies between floor(3 * delay / 4) and the smaller of floor(5 * delay / 4) and the maximum |
| RelayTiming.JitterVector | crates/core/src/relay.rs:359-361 | The xorshift step on the state one |
| Config.NearestIsNearest | crates/core/src/relay.rs:400-401 | The interval admitted is exactly one to which no other number of nanoseconds is nearer to one second divided by the rate |
| RelayState.State.OnDatagram | crates/core/src/relay.rs:146-189 | The listener's lock section turns the shared state into exactly `RelayModel.Receive` of the old one |
| RelayState.State.Check | crates/core/src/relay.rs:152-183 | The checks, in their order, decide as `RelayModel.Verdict` |
| RelayState.State.Finish | crates/core/src/relay.rs:223-241 | `finish_front` turns the state into exactly `RelayModel.FinishFront` of the old one |
| RelayState.State.TakeFront | crates/core/src/relay.rs:379-391 | A frame is handed out exactly when the queue is nonempty and the front's frame fits, leaving the message queued; a frame that does not fit ends as an oversized drop |
| RelayState.State.DrainQueue | crates/core/src/relay.rs:441-450 | The last section drops each queued message once, per source and in total, and empties the queue |
| RelayState.State.RequestStop | crates/core/src/relay.rs:92-98 | A stop request sets the deadline only when none is set |
| RelayState.State.FailListener | crates/core/src/relay.rs:198-203 | A listener failure sets the deadline to now, whatever was set before |
| RelayState.State.CountRetry | crates/core/src/relay.rs:418-424 | A failure is counted, and the in-flight mark cleared when a session was lost |
| RelayState.State.Status | crates/core/src/relay.rs:119-125 | The snapshot's rows are those of the source table at the relay's elapsed whole seconds |
| Rings.RingAgrees | crates/core/src/sources.rs:50-95 | For every nondecreasing log and later instant, a window shorter than the ring is summed exactly: no live bucket overwritten, no stale or default bucket counted |
| Rings.RingSizeIsExact | crates/core/src/sources.rs:13-14 | A ring of n buckets serves a window exactly if and only if the window's oldest age is below n: 61 and 1440 are the fewest |
| Rings.MinuteSandwich | crates/core/src/sources.rs:77-84 | Counting in whole minutes keeps all events aged at most 60 * hi seconds and none aged 60 * (hi + 1) or more |
| SourceTable.StampedRecords | crates/core/src/sources.rs:50-57 | Forwarding at a second keeps both rings equal to the replay of the extended log |
| SourceTable.RowIsExact | crates/core/src/sources.rs:58-88 | All three figures of a row against the complete log, and their order |
| Sources.IncrementAt | crates/core/src/sources.rs:90-95 | The in-place bucket update is the value-level one |
| Sources.SumWindow | crates/core/src/sources.rs:65-84 | The filter-and-sum over the bucket array is the windowed sum of its contents |
| Sources.Source.Forward | crates/core/src/sources.rs:50-56 | One forwarded message moves the counter and both arrays of its source as on values |
| Sources.Sources.Received | crates/core/src/sources.rs:22-44 | The mutable table counts, tracks or turns away a datagram exactly as on values, other sources untouched |
| Sources.Sources.Forwarded | crates/core/src/sources.rs:50-57 | Only the arrays and counter of the named source change, and an untracked one changes nothing |
| Sources.Sources.Dropped | crates/core/src/sources.rs:45-49 | Only the named source's drop count moves |
| Sources.Sources.Snapshot | crates/core/src/sources.rs:58-88 | One row for every tracked source, with the windowed figures of its arrays |
| Recogniser.ValidMessage | crates/core/src/framing.rs:12-125 | The scanner accepts a byte string if and only if some well-formed RFC 5424 tree prints to it |
| Recogniser.ScanValue | crates/core/src/framing.rs:98-113 | The escape-aware cursor stops at the quote that ends the PARAM-VALUE, or rejects exactly when there is none |
| Recogniser.ScanParams | crates/core/src/framing.rs:89-118 | The parameter loop consumes exactly the parameters of the grammar |
| Recogniser.ScanElements | crates/core/src/framing.rs:76-123 | The element loop consumes exactly the SD-ELEMENTs, rejecting a repeated SD-ID |
| Recogniser.ScanFields | crates/core/src/framing.rs:34-42 | The six space-terminated header fields |
| Recogniser.ScanPri | crates/core/src/framing.rs:13-33 | PRI: one to three digits, no leading zero, at most 191 |
| Recogniser.CheckTimestamp | crates/core/src/framing.rs:46-67 | The TIMESTAMP checks, with their digit loop, accept exactly the nil value and the stamps without a seventh fraction digit or a leap second that the RFC 3339 reader takes |
| Recogniser.CheckNames | crates/core/src/framing.rs:68-72 | HOSTNAME, APP-NAME, PROCID and MSGID: nonempty, printable, at most 255, 48, 128 and 32 octets |
| Recogniser.IsSdName | crates/core/src/framing.rs:126-131 | The octet loop accepts exactly the SD-NAMEs of the grammar |
| Recogniser.ScanBody | crates/core/src/framing.rs:73-141 | STRUCTURED-DATA (nil or at least one element) and MSG |
| Grammar.ParseSound | crates/core/src/framing.rs:12-125 | Whatever is parsed is a well-formed tree that prints back to the input |
| Grammar.ParseComplete | crates/core/src/framing.rs:12-125 | Every well-formed tree is recovered from its printed form |
| Grammar.ParserDecides | crates/core/src/framing.rs:12-125 | The parser decides the language, and an accepted message has exactly one tree |
| Grammar.Unambiguous | crates/core/src/framing.rs:12-125 | Two well-formed trees with the same text are equal |
| Grammar.ElementsSound | crates/core/src/framing.rs:76-123 | Parsed elements are well formed with pairwise distinct SD-IDs and print back |
| Grammar.ValueBack | crates/core/src/framing.rs:98-117 | A printed PARAM-VALUE ends at its own closing quote, whatever it escapes |
| Framing.Frame | crates/core/src/framing.rs:4-9 | A frame is read back by the receiver as exactly its message |
| Framing.StreamRoundTrip | crates/core/src/framing.rs:4-9 | Any concatenation of frames decodes to exactly the list of messages |
| Framing.PrefixFree | crates/core/src/framing.rs:4-9 | No frame is a proper prefix of another, and frames are injective |
| Framing.NoLeadingZero | crates/core/src/framing.rs:5-5 | MSG-LEN starts with zero exactly for the empty message |
| Framing.CeilingIsExact | crates/core/src/config.rs:246-250 | All messages up to a ceiling frame into 16384 octets if and only if the ceiling is at most 16378 |
| Config.CanonicalIpIsSameHost | crates/core/src/config.rs:56-61 | Canonical addresses coincide exactly for IPv4 addresses and their mapped forms, and canonicalising is idempotent |
| AuthExact.PassesExactlyLiveSessions | crates/cli/src/auth.rs:480-588 | In every run the gate passes a request on if and only if it is meant for the application and its cookie names a session created by a callback and since then not logged out, replaced or expired at that gate's prune |
| AuthExact.TablesHoldLiveEntries | crates/cli/src/auth.rs:176-181 | Each of the three tables, pruned, holds exactly the live entries of the history, and a session says what its login said |
| AuthExact.SignsInExactly | crates/cli/src/auth.rs:303-345 | A callback signs in if and only if its cookie names a live login not expired when the provider vouches for a member of the required group whose token has time left, and fewer than 128 sessions are live; the session then lasts the token's remaining time, at most 3600 s; the login is used up either way |
| AuthExact.BeginsExactly | crates/cli/src/auth.rs:182-220 | A login begins if and only if fewer than 64 are under way and the provider can be reached, and stays open for 300 s |
| AuthExact.LogsOutExactly | crates/cli/src/auth.rs:504-513 | A session is logged out if and only if a POST to the logout page carries the interface's own header and the cookie of that live session |
| AuthExact.HandsOffExactly | crates/cli/src/auth.rs:514-528 | On logout, a provider logout is handed off for 60 s, with the identity token of that login, if and only if the login's flow named an endpoint and fewer than 128 are pending |
| AuthExact.RedeemsExactly | crates/cli/src/auth.rs:589-596 | The provider's logout form is handed out if and only if the cookie names a live pending logout, with the provider recorded for it, which it uses up |
| AuthExact.NamesExactlyTheUser | crates/cli/src/auth.rs:575-586 | The identity page names, for live sessions only, the user the provider vouched for at their login |
| AuthExact.RefusesExactly | crates/cli/src/auth.rs:480-588 | When each refusal is given, in every run: full tables, unavailable provider, missing header, sign-in required or redirect to login |
| AuthExact.OthersChangeNothing | crates/cli/src/auth.rs:480-588 | Every other request changes the tables by expiry only |
| AuthRuns.AlwaysTimely | crates/cli/src/auth.rs:454-457 | Over every run a session expires exactly min(token's remaining time, 3600 s) after its creation, from a token with time left, verified within 300 s of the login's beginning; it outlives its token by no more than the clock moved between verification and creation |
| AuthRuns.AlwaysRedeemedInTime | crates/cli/src/auth.rs:519-527 | A pending logout is redeemed within 60 s of its session's end, with the identity token of that session's login |
| AuthRuns.PassedOnlyWithLiveSession | crates/cli/src/auth.rs:504-587 | Whatever was passed on had a session from an earlier callback whose claim grants the required group, ended by nothing before, with a lifetime of at most an hour |
| AuthRuns.AlwaysSingleUse | crates/cli/src/auth.rs:303-326 | Over a whole run a flow is consumed at most once and gives at most one session, a session is logged out at most once and gives at most one pending logout, which is redeemed at most once |
| AuthRuns.AlwaysDescends | crates/cli/src/auth.rs:504-532 | Every session and every pending logout in the tables descends from one consumed login flow |
| AuthRuns.NeverInBothTables | crates/cli/src/auth.rs:512-527 | A login is never behind an entry of the session table and of the logout table at once |
| AuthRuns.AlwaysBounded | crates/cli/src/auth.rs:182-191 | At most 64 flows, 128 sessions and 128 pending logouts in every reachable state |
| AuthRuns.GateKeeps | crates/cli/src/auth.rs:480-588 | One request, whatever it is, keeps the tables consistent with the history |
| AuthState.Auth.OnGate | crates/cli/src/auth.rs:480-588 | The gate on the mutable tables does to them, replies and records exactly what the value-level gate says |
| AuthState.Auth.OnCallback | crates/cli/src/auth.rs:303-345 | The flow is consumed even when the login fails; a session is inserted only for a granted login with room |
| AuthState.Auth.OnLogin | crates/cli/src/auth.rs:182-220 | A flow is inserted under a fresh key, replacing the one named by the request's cookie, unless the table is full or the provider is unavailable |
| AuthState.Auth.OnLogout | crates/cli/src/auth.rs:508-547 | The session goes; a pending logout is inserted when the provider supports it and there is room |
| AuthState.Auth.OnEndSession | crates/cli/src/auth.rs:589-595 | A pending logout is handed out once and removed |
| Groups.JoinedDecidesExactly | crates/cli/src/auth.rs:742-764 | The comma-joined string and the array of comma-free, trimmed names are decided alike if and only if the required group is nonempty |
| Groups.CheckAgreesExactly | crates/cli/src/auth.rs:700-739 | The diagnostic reports a match exactly when access is granted, for every claim, if and only if the required group is nonempty and comma-free |
| Groups.TrimIsTheCore | crates/cli/src/auth.rs:747-750 | Trimming yields the slice with only white space before and behind it and none at its own ends, and no other slice is like that |
| Groups.OnlyWholeNamesMatch | crates/cli/src/auth.rs:742-754 | A comma list grants a nonempty group if and only if the group has no outer white space and some whole delimited part is the group surrounded by white space only: never a fragment of a name |
| Groups.OfferDecides | crates/cli/src/auth.rs:700-764 | Access is granted exactly for a name the claim offers, and a difference in letter case is reported exactly when no offered name is the group but one is up to case |
| Groups.JoinedDecidesAsArray | crates/cli/src/auth.rs:742-764 | For a nonempty required group both encodings of a list decide alike |

## Left out

- The loops of `listen` and `send` are not single methods, because other threads act between their lock sections: the lock sections are methods of `RelayState.State`, and the private stretches between them are the steps of `RelayMachine`, on values.
- Sockets, threads, sleeping, DNS and OpenSSL: their outcomes are inputs of the steps. A session's plaintext budget is constant while it lives, and connecting is one step that succeeds or fails.
- Panics, a poisoned lock and a sender thread that cannot be started.
- Wall-clock times (`last_*_ms`), status texts, fingerprints, cipher names and the `running` flag.
- Rounding of 1 / rate in 64-bit floating point: any nearest number of nanoseconds is admitted as interval.
- Machine-integer width: counters, sizes and clock readings are unbounded; wraparound of `attempts` at 2^64 is not modelled. The jitter word is 64 bits wide.
- The order of the rows in a snapshot: a snapshot is a map from address to row.
- `Config.Valid` is the numeric part of `validate` the relay rests on; host names, ports, certificate paths, `datagram_bytes`, TOML reading and saving are left out.
- The RFC 3339 parser and UTF-8 validation are arbitrary predicates; of a timestamp only the checks written in the recogniser itself are modelled.
- Discovery, code exchange, token verification, `state`, `nonce` and PKCE: one input says whether the provider vouches for the user and with which claim and lifetime.
- Cookie text, HTTP replies as bytes, the Host and Origin check, HTML pages and debug output; a request is its method, its path, three cookies and the script header.
- Uniqueness of random keys is assumed of the random source.
- The web server, the command line, the desktop shell and its user interface: plumbing around the modelled core.
