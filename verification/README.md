# Verified models of the routing engine

Dafny models of the parts of this repository where a mistake is silent: the
forwarding-plane sink that writes routes over netlink, the configuration store
and its two-phase apply, DNS name compression, the boundary between request
threads and the engine's loop, the policy store, the repacking of a routing
table into BGP messages, and the event queues. Check everything with
`dafny verify dfyconfig.toml`.

How it is laid out, part by part:

- **The netlink sink** (`Routes`, `SinkModel`, `SinkInvariant`, `SinkRun`,
  `SinkProgress`, `Reconcile`, `SinkShutdown`, `SinkReopened`, `NetlinkSink`). The
  sink's containers and the kernel are one transition system; entries are objects, so
  the same entry in two containers is really shared. The kernel handles requests in
  order, may refuse any of them, and its acknowledgements arrive in order and are
  not lost; the class `NetlinkSink` does the same in place, each method tied to its
  transition. An overdue answer (the timeout sweep) is one that is late, not lost.
- **Netlink on the wire** (`NetlinkWire`), for either byte order.
- **Configuration** (`Documents`, `Diffs`, `Secrets`, `WriteBack`,
  `RedactedEdits`, `RenderedChanges`, `ConfigStore`, `CorePlane`, `Transaction`,
  `ConfigTransaction`). A document is a JSON value. `Transaction` is the two-phase
  apply as one step, `CorePlane` the core's part in it: a script says which plugin
  rejects, which one's commit raises and what it leaves behind, and which calls on a
  forwarding sink raise. `ConfigTransaction` has the plugins, the core and the
  engine that do it in place.
- **DNS** (`DnsNames`, `DnsReader`, `DnsRefusal`, `DnsWriter`, `DnsPacket`,
  `DnsWire`, `DnsCodec`). `Naive` is pointer-following decompression with no store at
  all; `DnsWire` says what was read and written in terms of the bytes.
- **Concurrency** (`Bridge`, `Wakeup`): every step a thread, a callback or a timer
  can take is an event; theorems are about all interleavings.
- **Policy** (`Policy`, `PolicyStore`), **UPDATE repacking** (`Bytes`, `Updates`,
  `UpdateStream`, `Repack`) and **event queues** (`Events`).

Where the code does not do what its documentation says, the code is modelled and
the exact condition is proved, with a run or an input that shows the difference:

- an inexpressible next hop withdraws nothing: `InexpressibleWithdrawsNothing`,
  with `MirrorsNullSinkIff`;
- a retry left over from a shutdown outlives it: `StaleRetryLosesARoute`, with
  `Shutdown` and `LeftOversHarmlessIff`;
- a plugin whose commit raises is handed nothing back: `UntidyPluginIsLeftBehind`,
  with `PluginsHoldIff`;
- a rollback can report a forwarding sink restored that is not:
  `LostSinkIsNotReported`, `InjectedSinkStaysShut`, with `RollBackTruthfulIff`;
- nulls and empty sections do not come back: `NullDoesNotComeBack`, with
  `DelUndoesSetIff`;
- a plugin can be told of a change it does not have: `UnderMayBeNoisy`, with
  `UnderEmptyIff`;
- a secret directly under a wildcard key is shown: `KeyedSecretIsShown`, with
  `HiddenIff`;
- a pointer to a second copy of a name is refused: `SecondCopyIsRefused`, with
  `MessageReadableIff`;
- a sink that raises when asked strands its work: `RaisingStrands`, with
  `StrandedIffDeaf`;
- versions come back across a removal: `VersionReusedAfterRemoval`, with
  `VersionStaysIff` and `VersionReusedIff`;
- a loss is counted that was none: `CountedLossThatWasNone`, with
  `DroppedIsExactIff`.

## Model

| member | source | states |
|---|---|---|
| `SinkRun.StepKeeps` | packets/routing/rtengine/fib/netlink.py:1827-2105 | whatever one call, flush step, kernel answer or outside change happens next, the containers, the acknowledgements in flight and the kernel keep fitting together (`Flow`: each entry staged where its container says, in-flight requests no newer than the entry's latest, no answer lost or reordered, window kept, and for each key what the sink may believe about the kernel is true of it) |
| `SinkRun.StepIndexed` | packets/routing/rtengine/fib/netlink.py:1330-1423 | the prefix index stays exact: an entry is an add exactly when its prefix occupies its key |
| `SinkRun.RunIndexed` | packets/routing/rtengine/fib/netlink.py:1330-1463 | both invariants hold after every legal run |
| `SinkRun.RunTracks` | packets/routing/rtengine/fib/netlink.py:1330-1423 | after any run the index and entries say exactly the last expressible install of each prefix not since withdrawn |
| `SinkRun.IdleMeansWanted` | packets/routing/rtengine/fib/netlink.py:1446-1463 | with queue, in-flight and retry maps empty, the kernel's routes of ours are exactly the wanted ones, with matching gateway and interface |
| `SinkRun.QuiescenceRefinement` | packets/routing/rtengine/fib/netlink.py:1330-1463 | the main refinement: from a new sink, or one shut down with no retry left, after any interleaving of installs, withdrawals, retries, overdue answers, refused or failed requests and other owners' changes, an idle sink has made the kernel hold exactly the last expressible install per prefix |
| `SinkRun.OfferedIsHeld` | packets/routing/rtengine/fib/netlink.py:1691-1748 | so, route by route: for the last expressible route offered for a destination and not withdrawn since, the kernel of an idle sink has a route of ours at exactly one priority (the one configured for its administrative distance, else the default, modulo 2^32), through its next hop, or with no gateway when that is all zeros |
| `SinkRun.DroppedIsGone` | packets/routing/rtengine/fib/netlink.py:1388-1423 | and for a destination withdrawn since, or never offered expressibly, none at any priority |
| `SinkRun.WantedMatchesNull` | packets/routing/rtengine/fib/sink.py:160-185 | where the trivial sink's record of a prefix is expressible it is what is wanted, and a prefix it does not record is not wanted |
| `SinkRun.MirrorsNullSinkIff` | packets/routing/rtengine/fib/sink.py:139-185 | the kernel, once the netlink sink is idle, has one route of ours at each recorded prefix and priority, by the recorded next hop, and no other, exactly when every route the trivial sink records for the same calls has an expressible next hop |
| `SinkRun.InexpressibleWithdrawsNothing` | packets/routing/rtengine/fib/netlink.py:1354-1361 | for instance: offered to an idle sink, an inexpressible next hop changes neither the sink nor the kernel, which then mirrors the trivial sink no longer |
| `SinkRun.ExactlyOnePlace` | packets/routing/rtengine/fib/netlink.py:1827-2029 | on every reachable state an entry is in exactly one of queue, retry map, in-flight map (for its latest request) and installed set; an installed one has nothing in flight; add if and only if indexed; the window holds |
| `SinkRun.AnswerAppliedIff` | packets/routing/rtengine/fib/netlink.py:2002-2029 | an answer does more than leave the in-flight map exactly when it answers its entry's latest request and that is still awaited |
| `SinkRun.ForeignKeptIff` | packets/routing/rtengine/fib/netlink.py:1750-1805 | over any run its own owner leaves it alone in, a route of another protocol or table is still there, as it was, exactly when the kernel accepted no add of ours at that very identity |
| `SinkRun.ForeignSurvives` | packets/routing/rtengine/fib/netlink.py:1477-1483 | so a route in another table, or at none of our priorities, survives every run its own owner leaves it alone in |
| `SinkInvariant.InstallKeeps` | packets/routing/rtengine/fib/netlink.py:1330-1386 | `install` keeps the invariant, whatever entry object it allocates |
| `SinkInvariant.InstallEffect` | packets/routing/rtengine/fib/netlink.py:1361-1386 | what an expressible install does to the index, the entry at the new key and the entry at the key the prefix used to occupy |
| `SinkInvariant.WithdrawKeeps` | packets/routing/rtengine/fib/netlink.py:1388-1423 | `withdraw` keeps the invariant |
| `SinkInvariant.SendKeeps` | packets/routing/rtengine/fib/netlink.py:1942-1968 | writing one request keeps the invariant, whether the socket blocks, fails or delivers, and whatever the kernel decides |
| `SinkInvariant.KernelEffect` | packets/routing/rtengine/fib/netlink.py:1750-1805 | a request changes the kernel only at its own table, prefix and priority, and its answer tells the truth about the route of ours there |
| `SinkInvariant.ReplyKeeps` | packets/routing/rtengine/fib/netlink.py:1985-2105 | reading one answer keeps the invariant, stale or not |
| `SinkInvariant.PromoteKeeps` | packets/routing/rtengine/fib/netlink.py:1873-1896 | putting a due retry back in the queue keeps the invariant |
| `SinkInvariant.ExpireKeeps` | packets/routing/rtengine/fib/netlink.py:1898-1922 | re-queueing an overdue request keeps the invariant as long as its answer is only late |
| `SinkProgress.BackoffDoubles` | packets/routing/rtengine/fib/netlink.py:2193-2212 | the wait after a failure is one second at first, doubles with each further failure in a row, and is never more than a minute |
| `SinkProgress.AnsweredWaits` | packets/routing/rtengine/fib/netlink.py:2031-2105 | an entry whose request was refused goes to the retry map, and no flush promotes it before that wait, counted from the answer, is over; an accepted add starts the count again |
| `SinkProgress.RunIsCalm` | packets/routing/rtengine/fib/netlink.py:1942-1968 | over any run in which every request written is accepted, nothing ever awaits a retry: each answer is a success, or "no such route" to a delete |
| `Reconcile.SortedIsInv` | packets/routing/rtengine/fib/netlink.py:1496-1540 | the state start-up reconciliation leaves (each route of ours adopted if it matches, otherwise a queued delete) satisfies the invariant |
| `Reconcile.ReconcileThenInstall` | packets/routing/rtengine/fib/netlink.py:1465-1556 | from any kernel table: once that state has run to an idle sink with exactly the wanted routes offered, our routes in our table are exactly the wanted ones |
| `Reconcile.AdoptedNeverRewritten` | packets/routing/rtengine/fib/netlink.py:1515-1533 | an installed route is not touched in the kernel while its prefix is neither withdrawn nor offered with other attributes |
| `Reconcile.AdoptedSurviveInstall` | packets/routing/rtengine/fib/netlink.py:1522-1526 | what reconciliation adopted is unchanged in the kernel after the first installs of the same routes |
| `Reconcile.LeftOversHarmlessIff` | packets/routing/rtengine/fib/netlink.py:1519-1540 | sorting the dump of any kernel table on a sink that still has retries from before its last shutdown ends in an invariant state exactly when each of them is at a key whose route is still there, ours, and not wanted as it is |
| `Reconcile.DesiredOf` | packets/routing/rtengine/fib/netlink.py:1487-1494 | with one best route per destination, each expressible one is wanted at its own key |
| `NetlinkSink.Kernel.Send` | packets/routing/rtengine/fib/netlink.py:1942-1968 | the far end of the socket: it may take, refuse or not take a request, handles what it takes at once and queues the answer last; a reliable one takes and accepts every request |
| `NetlinkSink.NetlinkSink.Enqueue` | packets/routing/rtengine/fib/netlink.py:1827-1838 | the whole new state: to the back of the queue, out of the retry map, stage queued |
| `NetlinkSink.NetlinkSink.Forget` | packets/routing/rtengine/fib/netlink.py:1840-1846 | the whole new state: out of every container |
| `NetlinkSink.NetlinkSink.EntryFor` | packets/routing/rtengine/fib/netlink.py:1816-1825 | the entry of that key, or a new one registered under it |
| `NetlinkSink.NetlinkSink.Retire` | packets/routing/rtengine/fib/netlink.py:1848-1863 | the whole new state when a prefix leaves a key: forgotten if never written, otherwise a queued delete |
| `NetlinkSink.NetlinkSink.Install` | packets/routing/rtengine/fib/netlink.py:1330-1386 | an inexpressible route changes nothing; otherwise the state is `install` of the old one for some object that may be allocated |
| `NetlinkSink.NetlinkSink.Withdraw` | packets/routing/rtengine/fib/netlink.py:1388-1423 | the whole new state of a withdrawal, built from the index rather than the route |
| `NetlinkSink.NetlinkSink.RecordSuccess` | packets/routing/rtengine/fib/netlink.py:2031-2062 | an add becomes installed, a delete is forgotten |
| `NetlinkSink.NetlinkSink.RecordError` | packets/routing/rtengine/fib/netlink.py:2064-2105 | "no such route" from a delete is success; otherwise one more attempt, a backoff and the retry map |
| `NetlinkSink.NetlinkSink.Handle` | packets/routing/rtengine/fib/netlink.py:2002-2029 | the whole new state after one reply, and the acknowledgement counter never falls |
| `NetlinkSink.NetlinkSink.Send` | packets/routing/rtengine/fib/netlink.py:1942-1968 | the whole new state of sink, kernel and answers after one write attempt |
| `NetlinkSink.NetlinkSink.SendBatch` | packets/routing/rtengine/fib/netlink.py:1924-1940 | a legal run of writes, all but perhaps the last not blocked, which shrinks the work left by at least the number sent; it stops only at the batch limit, an empty queue, a full window or a socket that would block; a reliable kernel accepts them all |
| `NetlinkSink.NetlinkSink.ReadAcks` | packets/routing/rtengine/fib/netlink.py:1985-2000 | a legal run of replies and nothing else, as many as are processed, that shrinks the work left by that number; against a reliable kernel it stops only at the limit or when no answer is left |
| `NetlinkSink.NetlinkSink.PromoteRetries` | packets/routing/rtengine/fib/netlink.py:1873-1896 | exactly the first retries due at this moment, in the order of the map and up to the limit, leave the retry map for the back of the queue, in order; the rest stay |
| `NetlinkSink.NetlinkSink.SweepTimeouts` | packets/routing/rtengine/fib/netlink.py:1898-1922 | exactly the oldest requests in flight, each unanswered for the timeout, up to the limit or the first one younger than that, leave the in-flight map and are queued again; the rest stay |
| `NetlinkSink.NetlinkSink.Flush` | packets/routing/rtengine/fib/netlink.py:1425-1444 | one flush is those promotions, then that sweep, then writes until the batch, the queue, the window or the socket ends them, then replies, each a legal run, and keeps the window; against a reliable kernel it leaves less work than its sweep did, or nothing queued and nothing in flight; with no retry and nothing in flight at the start, and something queued, strictly less work |
| `NetlinkSink.NetlinkSink.NextFlushIn` | packets/routing/rtengine/fib/netlink.py:1446-1463 | None exactly when closed or idle; at once while anything is queued, a hundredth of a second while an answer is outstanding, otherwise the wait after which the first retry, and none before it, is due |
| `NetlinkSink.NetlinkSink.Pump` | packets/routing/rtengine/engine.py:1190-1213 | flushing until the sink has nothing to do is a legal run and ends only idle; against a reliable kernel, from any state with no retry and no failure to come, within the timeout of what is in flight, one flush more than there is work is always enough |
| `NetlinkSink.NetlinkSink.InstallAll` | packets/routing/rtengine/engine.py:1036-1055 | offering every route is a legal run of one offer for each expressible one, in order, and keeps the invariant |
| `NetlinkSink.NetlinkSink.Converge` | packets/routing/rtengine/engine.py:1036-1055 | a new sink given any table and pumped within the timeout against a reliable kernel with none of our routes ends idle, with the last expressible route of each destination in the kernel and none of ours for any other |
| `NetlinkSink.NetlinkSink.Drain` | packets/routing/rtengine/fib/netlink.py:2109-2148 | always ends, is a legal run, and against a reliable kernel, with patience for the outstanding work, leaves queue and in-flight map empty |
| `NetlinkSink.NetlinkSink.SortDump` | packets/routing/rtengine/fib/netlink.py:1487-1540 | adopts or dooms every dumped route of ours, on any sink whose containers are empty but for leftover retries; the state is invariant exactly when each leftover is at a key that got a delete of its own, and then every route of ours is sorted exactly |
| `NetlinkSink.NetlinkSink.Reconcile` | packets/routing/rtengine/fib/netlink.py:1465-1556 | refused on a closed sink; otherwise sorts the dump of any kernel table, for a new sink or one reopened with no retry left, then drains: what follows is a legal run from an invariant state |
| `NetlinkSink.NetlinkSink.Shutdown` | packets/routing/rtengine/fib/netlink.py:1558-1622 | on a closed sink everything is forgotten; retaining changes nothing but closes; otherwise all containers but the retry map are cleared, so that the sink is as good as new exactly when no retry was left, and every route of ours still in the kernel is one whose delete was queued, unanswered or refused when the drain ended |
| `NetlinkSink.PathKeepsRetry` | packets/routing/rtengine/fib/netlink.py:1883-1893 | no key is twice in the retry map, after any run of calls, flush phases and answers: what `flush` needs |
| `SinkShutdown.DoomedIsFlow` | packets/routing/rtengine/fib/netlink.py:1594-1601 | turning every written entry into a queued delete keeps the invariant and leaves only deletes |
| `SinkReopened.StaleRetryLosesARoute` | packets/routing/rtengine/fib/netlink.py:1594-1621 | a run that goes wrong: a delete refused at shutdown leaves its retry behind; reopened and reconciled, the sink adopts the route, sends that delete, and the answer forgets the new entry: idle, indexed, and neither sink nor kernel has the route |
| `SinkShutdown.OursIsUnfinished` | packets/routing/rtengine/fib/netlink.py:1602-1613 | with only deletes left, each route of ours in the kernel has its delete queued, unanswered or awaiting a retry |
| `NetlinkWire.MsgsRoundTrip` | packets/routing/rtengine/fib/netlink.py:424-463 | parsing inverts any concatenation of packed messages, in either byte order |
| `NetlinkWire.AttrsRoundTrip` | packets/routing/rtengine/fib/netlink.py:392-487 | walking packed attributes gives them back, padding and all |
| `NetlinkWire.FirstsExact` | packets/routing/rtengine/fib/netlink.py:466-487 | a type maps to the payload of its first occurrence, and only types that occur are mapped |
| `NetlinkWire.MsgsWithinBounds` | packets/routing/rtengine/fib/netlink.py:440-463 | on arbitrary bytes the messages found fit in the buffer |
| `NetlinkWire.ParseMessages` | packets/routing/rtengine/fib/netlink.py:440-463 | the parsing loop computes that list and ends on any bytes |
| `NetlinkWire.ParseAttributes` | packets/routing/rtengine/fib/netlink.py:466-487 | the attribute loop computes the first-occurrence map and ends on any bytes |
| `NetlinkWire.RouteRoundTrip` | packets/routing/rtengine/fib/netlink.py:605-634 | parsing a built request recovers family, destination, gateway, interface, priority, protocol and any 32-bit table |
| `NetlinkWire.WireIsRequest` | packets/routing/rtengine/fib/netlink.py:1750-1805 | the bytes of a request say the kernel key and route the sink's model sends |
| `NetlinkWire.AttrsAre` | packets/routing/rtengine/fib/netlink.py:1781-1803 | the attributes of a request byte by byte: type 1 the destination, 5 the gateway and 4 the interface where there is one, 6 the priority, 15 the table |
| `NetlinkWire.RequestBytes` | packets/routing/rtengine/fib/netlink.py:1769-1805 | the rest of it: its own length, type 24 with flags 0x505 for an add and 25 with 0x005 for a delete, the sequence number, port 0, and the twelve bytes of `struct rtmsg` |
| `NetlinkWire.AckRoundTrip` | packets/routing/rtengine/fib/netlink.py:2023-2028 | the errno in an acknowledgement is read back, 0 included |
| `Documents.SetThenGet` | packets/routing/rtengine/config.py:540-575 | what is set is read back, and no path that is neither above nor below it changes |
| `Documents.SetFailsIff` | packets/routing/rtengine/config.py:556-575 | setting fails exactly when a proper part of the path holds something that is neither a section nor null |
| `Documents.DelThenGet` | packets/routing/rtengine/config.py:578-606 | deleting succeeds exactly when something is there, removes it, and changes no incomparable path |
| `Documents.DelKeepsNoEmpty` | packets/routing/rtengine/config.py:578-606 | pruning keeps a document free of empty sections |
| `Documents.SetKeepsNoEmpty` | packets/routing/rtengine/config.py:556-575 | so does setting a value that is not an empty section and holds none |
| `Documents.DelUndoesSetIff` | packets/routing/rtengine/config.py:556-606 | deleting undoes setting an absent path exactly when no null and no empty section lies along it |
| `Documents.NullDoesNotComeBack` | packets/routing/rtengine/config.py:556-606 | for instance a null: a concrete document |
| `ConfigStore.SetPath` | packets/routing/rtengine/config.py:556-575 | the walking loop computes `set_path` |
| `ConfigStore.DelPath` | packets/routing/rtengine/config.py:578-606 | the loop that keeps the chain and prunes upwards computes `del_path` |
| `Diffs.DiffExact` | packets/routing/rtengine/config.py:688-714 | the difference is exactly the first places where the documents stop being two sections, each with the values found there, which differ |
| `Diffs.ChangesAreAntichain` | packets/routing/rtengine/config.py:688-714 | no change is at or below another |
| `Diffs.InverseIsSwapped` | packets/routing/rtengine/config.py:652-657 | the inverse is the difference the other way round |
| `Diffs.DifferenceIsReported` | packets/routing/rtengine/config.py:688-714 | documents that differ at a path have a change at, above or below it |
| `Diffs.EmptyDiffIff` | packets/routing/rtengine/config.py:699-714 | the difference is empty exactly when the documents are equal |
| `Diffs.UnderEmptyIff` | packets/routing/rtengine/config.py:636-650 | a section's sub-diff is empty exactly when the section is unchanged and nothing above it was replaced by or with a value |
| `Diffs.UnderMayBeNoisy` | packets/routing/rtengine/config.py:636-650 | so a plugin can be told of a change that leaves its section as it was: an empty object written above it |
| `Diffs.DiffDetermines` | packets/routing/rtengine/config.py:688-714 | the old document and the difference determine the new one |
| `Secrets.RedactIsMasked` | packets/routing/rtengine/config.py:891-917 | walking pattern after pattern hides exactly what one pass over the document hides |
| `Secrets.RedactTwice` | packets/routing/rtengine/config.py:913-917 | redaction is idempotent |
| `Secrets.HiddenIff` | packets/routing/rtengine/config.py:895-917 | a stored secret is hidden exactly when a pattern that ends in a name matches its path; otherwise it is left as it was |
| `Secrets.SecretsHavePatterns` | packets/routing/rtengine/config.py:252-301 | every secret position of a schema matches one of its patterns |
| `Secrets.NoSecretShown` | packets/routing/rtengine/config.py:274-301 | for a schema whose secrets sit under named keys a redacted document shows no stored secret |
| `RenderedChanges.OnlySecretsHidden` | packets/routing/rtengine/config.py:895-917 | redacting a document of the schema's shape shows every value that is not at a secret position as it is |
| `Secrets.KeyedSecretIsShown` | packets/routing/rtengine/config.py:895-911 | a keyed collection of secrets is not redacted: a concrete schema and document |
| `WriteBack.ResolveIsResolved` | packets/routing/rtengine/config.py:919-932 | resolving pattern after pattern is one pass that keeps the stored value wherever the sentinel stands at a secret position |
| `RedactedEdits.WriteBackIsEdit` | packets/routing/rtengine/config.py:807-851 | editing the redacted document and writing it back proposes the same edits of the stored one, for any list of sets, deletes and merges that write no sentinel at a secret position |
| `RedactedEdits.UnchangedWriteBackIff` | packets/routing/rtengine/config.py:839-851 | writing the redacted document back unedited gives the stored one exactly when no stored secret is the sentinel, and is refused otherwise |
| `RedactedEdits.PatchIsMerge` | packets/routing/rtengine/api/routes_config.py:190-242 | merging a patch into the redacted section and setting the result proposes what merging into the stored section would |
| `RedactedEdits.MergeAt` | packets/routing/rtengine/api/routes_config.py:223-242 | what a merge leaves at any path: what the patch does not mention survives, where it holds null nothing is left, where it holds any other value that is no section that value stands, and sections merge |
| `RedactedEdits.PatchAt` | packets/routing/rtengine/api/routes_config.py:190-242 | the same for the whole document a PATCH proposes: outside the patched section nothing changes |
| `ConfigStore.MergeSection` | packets/routing/rtengine/api/routes_config.py:223-242 | the merging loop: null removes, objects merge, anything else replaces |
| `RenderedChanges.RedactCommutesWithGet` | packets/routing/rtengine/config.py:969-998 | redacting a value read at a path equals reading that path from the redacted document, when secrets sit under named keys and hold text |
| `RenderedChanges.RenderedChangeIsProjection` | packets/routing/rtengine/config.py:947-967 | either side of a rendered change is what the redacted documents show there |
| `RenderedChanges.ShapedHoldsText` | packets/routing/rtengine/config.py:146-250 | a document of the schema's shape holds text at every secret position |
| `ConfigStore.Store.Document` | packets/routing/rtengine/config.py:769-782 | a copy of the running document; redacted, no stored secret of a schema with named secrets is in it |
| `ConfigStore.Store.ProposeSet` | packets/routing/rtengine/config.py:807-823 | accepted exactly when the path can be set, every sentinel resolves and the result is valid; the proposal is that result |
| `ConfigStore.Store.ProposeDelete` | packets/routing/rtengine/config.py:825-837 | accepted exactly when something is there and the result is valid |
| `ConfigStore.Store.ProposeReplace` | packets/routing/rtengine/config.py:839-851 | accepted exactly when it is (or stands for) an object whose sentinels resolve to a valid document |
| `ConfigStore.Store.Commit` | packets/routing/rtengine/config.py:861-871 | the document and the revision move together, by one, and the history grows by that document |
| `ConfigStore.Store.CheckRevision` | packets/routing/rtengine/config.py:873-887 | a guard that passes names the running document |
| `ConfigStore.ReplaceIsEdit` | packets/routing/rtengine/config.py:839-851 | for a valid stored document without the sentinel, replacing with the edited redacted copy proposes the same edits |
| `ConfigStore.IdentityIsNoChange` | packets/routing/rtengine/config.py:839-859 | the identity edit has an empty difference, or is refused when a stored secret is the sentinel |
| `CorePlane.CommitServes` | packets/routing/rtengine/engine.py:909-986 | a committed change of the core leaves it serving the new document: the right sink, open and filled or closed as it says, and the sections |
| `CorePlane.CommitsIff` | packets/routing/rtengine/engine.py:900-986 | the core's commit goes through exactly when the sections do and, on a running engine, so do the sink calls the change makes: opening and filling a sink it builds or turns on, emptying an injected one it turns off |
| `CorePlane.KeepsSinkIff` | packets/routing/rtengine/fib/factory.py:47-68 | the running sink is kept exactly when it was injected, or installing is off before and after, or on in both with the same table (254 by default), protocol (190) and priorities (20 and 200) |
| `CorePlane.RollBackTruthfulIff` | packets/routing/rtengine/engine.py:1025-1115 | when a change of the core has failed and its rollback reports that all was restored, that is true exactly outside the runs of `Misreported`: an injected sink the change opened or emptied, or an engine-built one whose restoration after a failed switch failed |
| `Transaction.RevisionMoves` | packets/routing/rtengine/engine.py:707-781 | the document and the revision move together, by one for a real change, and exactly when everything was applied |
| `Transaction.AppliedIff` | packets/routing/rtengine/engine.py:707-781 | a change is applied exactly when it is one, the core and nobody it reaches rejects it, no commit it reaches raises, and the core's commit goes through |
| `Transaction.PluginsHoldIff` | packets/routing/rtengine/engine.py:743-768 | after any operation that does not report a failed rollback, every plugin holds its section of the stored document exactly when a plugin whose commit raised, which is handed nothing back, left its own section in place |
| `Transaction.CoreHoldsIff` | packets/routing/rtengine/engine.py:743-778 | after any such operation the core serves the stored document exactly when its rollback was not misreported |
| `Transaction.AllHoldIff` | packets/routing/rtengine/engine.py:707-781 | so everyone holds what is stored exactly when the operation ended well |
| `Transaction.RunsHold` | packets/routing/rtengine/engine.py:707-781 | over any run of operations that end well, whoever rejects and raises in it, everyone holds what is stored; over any run at all the revision counts the changes |
| `Transaction.UntidyPluginIsLeftBehind` | packets/routing/rtengine/plugins/bgp/plugin.py:689-740 | a run that does not: a plugin that takes its configuration over before it raises keeps it, though everything is reported rolled back |
| `Transaction.LostSinkIsNotReported` | packets/routing/rtengine/engine.py:1008-1034 | a change of table with neither sink fillable: reported rolled back, with the old sink shut |
| `Transaction.InjectedSinkStaysShut` | packets/routing/rtengine/engine.py:1083-1115 | turning installing off on an injected sink when the sections raise: reported rolled back, with the sink shut |
| `ConfigTransaction.Core.SyncOpen` | packets/routing/rtengine/engine.py:1057-1087 | the whole new state after opening or closing the running sink |
| `ConfigTransaction.Core.SwitchSink` | packets/routing/rtengine/engine.py:988-1023 | the whole new state of both sinks after a switch, done or put back |
| `ConfigTransaction.Core.Commit` | packets/routing/rtengine/engine.py:909-986 | the whole new state of the core after its commit, and what a rollback will need |
| `ConfigTransaction.Core.RollBack` | packets/routing/rtengine/engine.py:1089-1115 | the whole new state after its rollback, and what is reported |
| `ConfigTransaction.Engine.Affected` | packets/routing/rtengine/engine.py:716-722 | exactly the plugins whose section the difference reaches, in registration order, each with its sub-diff |
| `ConfigTransaction.Engine.CommitPlugins` | packets/routing/rtengine/engine.py:743-750 | stops at the first plugin whose commit raises; those before hold their section of the proposal, the others are as they were |
| `ConfigTransaction.Engine.RollBackPlugins` | packets/routing/rtengine/engine.py:758-768 | each committed plugin is handed its section of the running document and exactly the difference that leads back; reports whether all took it |
| `ConfigTransaction.Engine.Apply` | packets/routing/rtengine/engine.py:707-781 | store, plugins, core and outcome are as the transaction says for whoever rejects and raises |
| `ConfigTransaction.Engine.Configure` | packets/routing/rtengine/engine.py:695-697 | stale exactly when `if_revision` names another revision, carried out exactly when it is not and the proposal can be made and is valid; applied only to the very document `if_revision` named; the new document is the resolved edit of the old one; revisions keep naming their documents; the rest is a transaction |
| `ConfigTransaction.Engine.Unconfigure` | packets/routing/rtengine/engine.py:699-701 | the same for a deletion |
| `ConfigTransaction.Engine.Replace` | packets/routing/rtengine/engine.py:703-705 | the same for a replacement |
| `ConfigTransaction.Engine.Patch` | packets/routing/rtengine/api/routes_config.py:190-208 | refused exactly where the patch is no object or the redacted document has no section there, stale exactly when `if_revision` is; what is applied is the patch merged into the stored section, though the client only ever saw the redacted one |
| `DnsReader.WalkIsNaive` | packets/protos/dns_purepy.py:120-152 | walking with a sound store reads the naively decompressed name, and each piece's offset means the tail that starts there |
| `DnsReader.ReadNameSound` | packets/protos/dns_purepy.py:106-165 | on any bytes a name that is read is the naively decompressed one, the store stays sound and forgets nothing |
| `DnsReader.MessageIsNaive` | packets/protos/dns_purepy.py:397-449 | a packet that parses holds exactly the records naive parsing finds, and the final store is sound |
| `DnsWire.ReadsTheWire` | packets/protos/dns_purepy.py:168-202 | on the bytes themselves: the records of a parsed packet lie one after the other, each with the type, class and time to live that stand after its name; it holds a name exactly for types 2, 5 and 12, the one naive decompression finds at its data, and otherwise the data as it is |
| `DnsRefusal.ReadableIff` | packets/protos/dns_purepy.py:137-150 | a name can be read exactly when it decompresses naively and the pointer that ends it, if any, is to a recorded offset |
| `DnsRefusal.WalkRecords` | packets/protos/dns_purepy.py:153-164 | reading a name records exactly the first places, in reading order, where a text starts |
| `DnsRefusal.MessageReadableIff` | packets/protos/dns_purepy.py:397-449 | a packet is read exactly when naive parsing reads it and every name that ends in a pointer points at the first copy, among the names before it, of what it repeats |
| `DnsRefusal.SecondCopyIsRefused` | packets/protos/dns_purepy.py:153-164 | so a pointer to a second copy is refused: a whole response that naive parsing reads |
| `DnsNames.JoinParts` | packets/protos/dns_purepy.py:672-678 | splitting a valid name and joining it only drops a trailing dot |
| `DnsWriter.WalkWritten` | packets/protos/dns_purepy.py:676-695 | the reader walks over a written name, compressed or not, and finds its pieces |
| `DnsWriter.NotesSimulate` | packets/protos/dns_purepy.py:681-688 | the writer's suffix table stays the part of the reader's store that a pointer can reach |
| `DnsWriter.NameRoundTrip` | packets/protos/dns_purepy.py:658-695 | a written name reads back as itself, a trailing dot aside, with writer and reader still in step |
| `DnsPacket.ResourceRoundTrip` | packets/protos/dns_purepy.py:697-722 | a written record reads back, its data length filled in |
| `DnsPacket.MessageRoundTrip` | packets/protos/dns_purepy.py:640-733 | for every writable message, compressed or plain and of any length, parsing what was written gives the same records and leaves nothing over |
| `DnsWire.WritableIff` | packets/protos/dns_purepy.py:697-722 | a record can be written exactly when its name is valid, its numbers fit their fields, and its data is a valid name for types 2, 5 and 12, four bytes for 1, sixteen for 28, at most 65535 for any other |
| `DnsWire.AnswersReadBack` | packets/protos/dns_purepy.py:640-733 | so a written answer of type 2, 5 or 12 reads back as its name, and any other as its bytes |
| `DnsWire.RepeatIsPointer` | packets/protos/dns_purepy.py:676-690 | a name written again in a compressed packet, below offset 16384, is two bytes: a pointer to the first copy |
| `DnsPacket.CompressedNoLonger` | packets/protos/dns_purepy.py:672-695 | compressed output is never longer than plain |
| `DnsCodec.PacketReader.Name` | packets/protos/dns_purepy.py:106-165 | the reading loops compute the name, its end and the new store; a name that cannot be read leaves the store alone |
| `DnsCodec.PacketReader.Resource` | packets/protos/dns_purepy.py:168-202 | one record, or the failure, and the store after it |
| `DnsCodec.PacketReader.Message` | packets/protos/dns_purepy.py:386-449 | the parsing loops: on any bytes they end, and the store they leave is sound |
| `DnsCodec.PacketWriter.Name` | packets/protos/dns_purepy.py:658-695 | the two writing loops compute the bytes and the suffix table |
| `DnsCodec.PacketWriter.Message` | packets/protos/dns_purepy.py:640-733 | what is written parses back to the same records |
| `Bridge.StepKeeps` | packets/routing/rtengine/api/bridge.py:171-223 | each interleaved step of a request thread, the loop or a callback keeps the three parties in agreement and both counters exact |
| `Bridge.ReportsAreTrue` | packets/routing/rtengine/engine.py:543-579 | in every reachable state a command ran at most once; reported cancelled, refused or unavailable means never started, unknown or answered means started; `in_flight` is the unsettled commands and within the cap; `_queued` is the runners not started |
| `Bridge.RefusedIff` | packets/routing/rtengine/api/bridge.py:171-198 | the command that arrives next is refused exactly when there is a cap and as many commands as that are unsettled |
| `Bridge.CancelledNeverRuns` | packets/routing/rtengine/api/bridge.py:200-211 | a command reported cancelled never starts, whatever happens later |
| `Bridge.UnknownHoldsItsPlace` | packets/routing/rtengine/api/bridge.py:122-126 | a command that timed out while running keeps its place under the cap |
| `Wakeup.StepKeeps` | packets/routing/rtengine/engine.py:1140-1213 | every callback keeps: one task, pump and timer at most, and nothing asked for is forgotten |
| `Wakeup.FlagsAreHistory` | packets/routing/rtengine/engine.py:1118-1213 | what the engine remembers is what happened: a pass is wanted exactly when one was asked for, or failed, since the last one began; the sink has work, or raised, exactly when the events say so |
| `Wakeup.RequestIsKept` | packets/routing/rtengine/engine.py:1140-1155 | a request made at any point of a run, with no pass begun or gone round since, is still wanted, and a selection is live or a retry armed |
| `Wakeup.GoesRoundIff` | packets/routing/rtengine/engine.py:1148-1155 | a pass that ends is followed by another exactly when one was asked for while it ran |
| `Wakeup.NoLostWakeup` | packets/routing/rtengine/engine.py:1118-1213 | over whole runs, even when passes raise and stated over the events alone: a selection asked for and not begun since has a live task or an armed retry; a sink with work that did not raise has a live pump, an armed timer or a running pass that will kick it |
| `Wakeup.StrandedIffDeaf` | packets/routing/rtengine/engine.py:1215-1228 | in every reachable state work is stranded exactly when the engine accepts work, the sink has some, it raised when last asked when to flush, and no pass is running |
| `Wakeup.Background.ScheduleSelect` | packets/routing/rtengine/engine.py:1118-1133 | refused once stopping; otherwise a kick at once, or one marshalled to the loop |
| `Wakeup.RaisingStrands` | packets/routing/rtengine/engine.py:1215-1228 | and then it is: a concrete run |
| `Wakeup.Background.KickSelect` | packets/routing/rtengine/engine.py:1140-1146 | the whole new state of a kick |
| `Wakeup.Background.KickFib` | packets/routing/rtengine/engine.py:1179-1188 | the whole new state of a pump kick |
| `Wakeup.Background.PassDone` | packets/routing/rtengine/engine.py:1151-1154 | a pass that ends keeps the invariant |
| `Wakeup.Background.PassFails` | packets/routing/rtengine/engine.py:1157-1176 | a pass that raises keeps the invariant |
| `Wakeup.Background.PumpTurn` | packets/routing/rtengine/engine.py:1190-1213 | a turn of the pump keeps the invariant |
| `PolicyStore.Store.Validate` | packets/routing/rtengine/policy/store.py:277-350 | true exactly for the documents whose lists, clauses and references are all good and, given the longest AS path, whose every regex is safe on it; nothing changes |
| `Policy.SmallDocumentAcceptedIff` | packets/routing/rtengine/policy/store.py:277-350 | for instance a prefix-list of one entry and a route-map that names a list: accepted exactly when its entry and clause are and it is that list |
| `PolicyStore.Store.Fill` | packets/routing/rtengine/policy/store.py:537-547 | a validated list cannot fail half-way: every entry is taken |
| `PolicyStore.Store.Refresh` | packets/routing/rtengine/policy/store.py:529-551 | an unchanged configuration is skipped, a changed one refills the same object, a new one makes one |
| `PolicyStore.Store.Load` | packets/routing/rtengine/policy/store.py:482-513 | the store afterwards is the function of the old store and the document; rejection touches nothing; objects keep their identity; the revision moves exactly when something changed |
| `Policy.LoadIsRebuild` | packets/routing/rtengine/policy/store.py:515-557 | names and contents depend only on the document loaded |
| `Policy.PrefixListHolds` | packets/routing/rtengine/policy/store.py:154-177 | after any load of an accepted document a prefix-list holds its entries in order: the sequence number given, or five for each place, the action, the prefix, then `le`, then `ge`, 0 where absent |
| `Policy.AsPathListHolds` | packets/routing/rtengine/policy/store.py:180-211 | an AS-path list likewise, with the regex under either of its two names |
| `Policy.RouteMapHolds` | packets/routing/rtengine/policy/store.py:214-247 | a route-map likewise, ten for each place, with what to match before what to set |
| `Policy.RunIsLastDocument` | packets/routing/rtengine/policy/store.py:482-513 | over any run of documents the contents are those of the last one |
| `Policy.VersionStaysIff` | packets/routing/rtengine/policy/store.py:515-557 | an object that every document of a run defines never loses version, and ends with the one it had exactly when none of them changed it |
| `Policy.ReuseNeedsRemoval` | packets/routing/rtengine/policy/store.py:685-715 | so a version comes back for another configuration only across a document that omits the object |
| `Policy.VersionReusedIff` | packets/routing/rtengine/policy/store.py:685-715 | and across a removal it does exactly when the list returns with as many entries as its version counted |
| `Policy.NothingMovesIff` | packets/routing/rtengine/policy/store.py:506-513 | a load changes nothing exactly when the document defines the recorded configuration |
| `Policy.VersionRisesIff` | packets/routing/rtengine/policy/store.py:524-551 | a surviving object's version rises exactly when its configuration changed |
| `Policy.VersionReusedAfterRemoval` | packets/routing/rtengine/policy/store.py:685-715 | as two prefix lists with different contents and one version do |
| `Policy.ReferencesResolve` | packets/routing/rtengine/policy/store.py:469-479 | every list a loaded route-map's clause names is in the store it was loaded into |
| `Updates.GroupByExact` | bench/mrt.py:642-660 | groups come in first-seen order, one per attribute set, with exactly the members that share it, in table order |
| `Updates.GroupByConserves` | bench/mrt.py:642-660 | grouping loses no route and makes none up |
| `Updates.FillConserves` | bench/mrt.py:663-687 | filling messages keeps every member, in order |
| `Updates.FillFits` | bench/mrt.py:663-687 | a batch overflows its room only when it is a single member |
| `Updates.FillIsGreedy` | bench/mrt.py:676-680 | the next batch's first member would not have fitted in the one before |
| `Updates.SplitEncode` | bench/mrt.py:310-337 | splitting inverts encoding, the choice of length form aside |
| `Updates.StripKeepsTheRest` | bench/mrt.py:513-543 | every attribute but the multiprotocol ones is carried through the stripping |
| `UpdateStream.StreamReads` | bench/rtengine_bench.py:242-303 | framing and walking the stream gives back exactly the batches it was built from |
| `UpdateStream.RepackingConserves` | bench/mrt.py:582-639 | walking the built stream gives every route of the table exactly once, with its own attributes, in first-seen group order, and the counts returned are right |
| `UpdateStream.MessagesFit` | bench/mrt.py:598-637 | every message is within the limit if every prefix alone fits the room its attributes leave |
| `UpdateStream.NlriBytes` | bench/mrt.py:563-570 | the prefixes of a batch are, in order, each its length and then its significant bytes |
| `UpdateStream.MessageBytes` | bench/mrt.py:598-637 | each message byte by byte, as section 4.3 of RFC 4271 and section 3 of RFC 4760 have it: marker, its own length, type 2, no withdrawn routes, the attributes with their length, and the prefixes after them or in MP_REACH_NLRI (type 14, family 2, SAFI 1) |
| `UpdateStream.BuildsIff` | bench/mrt.py:605-626 | where every prefix with any room fits it, repacking fails exactly when some route's attributes leave no room for a prefix |
| `Repack.SplitAttributes` | bench/mrt.py:310-337 | the splitting loop |
| `Repack.GroupByAttrs` | bench/mrt.py:642-660 | the grouping loop |
| `Repack.FillMessages` | bench/mrt.py:663-687 | the filling loop |
| `Repack.BuildUpdates` | bench/mrt.py:582-639 | the building loops |
| `Repack.Frames` | bench/rtengine_bench.py:242-259 | the framing loop |
| `Repack.WalkToReach` | bench/rtengine_bench.py:287-303 | the walk over attributes that looks for the multiprotocol one |
| `UpdateStream.LoadedIsCarried` | bench/mrt.py:470-543 | whatever attributes a dump stores, the table loaded from it can be carried: what stripping leaves never names the multiprotocol attribute |
| `UpdateStream.DumpSurvives` | bench/mrt.py:470-685 | a dump, loaded, repacked, framed and walked, gives exactly the table loaded |
| `Events.DropOldestKeepsASuffix` | packets/routing/rtengine/events.py:254-285 | after any interleaving of one publisher with reads, between publishes: the queue is a contiguous suffix of everything the schedule published, within the limit, and published is read plus evicted plus queued: no event is refused |
| `Events.DroppedIsExactIff` | packets/routing/rtengine/events.py:262-280 | the loss counter is exact exactly for the schedules in which no publish is overtaken, between finding the queue full and evicting, by as many reads as the queue holds |
| `Events.CountedLossThatWasNone` | packets/routing/rtengine/events.py:262-280 | otherwise it counts a loss that was none: a concrete run |
| `Events.DropNewestSeesASubsequence` | packets/routing/rtengine/events.py:258-285 | a drop-newest subscriber takes exactly the events published while fewer than the limit were taken and unread, reads them in order, has the rest of them queued, and counts every other event dropped |

## Left out

- Lost acknowledgements: the timeout sweep re-queues an entry without asking whether it is still current, so after a receive-buffer overrun the refinement does not hold; the sink theorems are for answers that are late at worst.
- A kernel that also matches the gateway on a delete: `install` overwrites the gateway before a queued delete is sent, so deletes match table, prefix, priority and protocol only.
- `NetlinkSink.Pump` is given the moments of its flushes: whether the engine sleeps or arms a timer in between is `Wakeup`'s business.
- Sequence-number wrap-around: a write is enabled only while sequence numbers last.
- The per-route status fields (`fib_state`, `fib_errno`), counters other than `acks`, log lines and `last_error`.
- The transport inside `open` and `close` (the kernel may refuse it, and unread answers go with it), capability probing, and errors other than would-block from a read.
- The order in which `shutdown` visits entries is arbitrary in the model; the source goes in insertion order.
- Dumped routes of families the engine has no prefix for: a dump entry here always has one.
- parse_ext_ack and the text of extended acknowledgements.
- `Documents` are values: `set_path`, `del_path` and redaction build new documents where the source edits a private deep copy in place, so aliasing inside a document is not modelled.
- `validate` is modelled for shape (`Shaped`); ranges, choices, name syntax and required keys are one uninterpreted predicate, and secrets inside lists are outside every claim.
- Python's `1 == True` inside lists: values here are equal only when their kinds are.
- `_stored_path`, which maps a URL's spelling of a key to the stored one, and a change landing between the read and the write of a PATCH that names no revision.
- In `CorePlane` a sink is open or not and filled or not: which of its routes reached the kernel is the sink modules' business. A `shutdown` that raises is one whose socket would not close, the only thing in the netlink sink's that can. Sinks with part of the interface missing are not modelled, nor starting and stopping the engine between two transactions.
- Which error a plugin or sink raises, and the text of an ApplyError.
- The `config-change` event itself; `RenderedChangeIsProjection` is about its contents.
- Writing DNS with `update` off (stale counts and lengths), the header flag setters, host-name syntax checks, UTF-8 decoding and address text.
- DnsCodec.PacketWriter.Message: writes valid names only (labels of 1 to 63 bytes), as section 2.3.4 of RFC 1035 has them. No setter checks names in record data: a label of 64 to 255 bytes is written as it is and reads back as a pointer, an empty one inside a name ends it when compressing and is dropped when not, and a longer one raises.
- Commands the bridge runs inline because the caller is already on the loop.
- Restarting the engine on the same loop after a stop.
- `_freeze` maps an object and a list to the same tuple; snapshots here are the entries themselves.
- The classes behind prefix-lists, AS-path lists and route-maps, which are not part of this model beyond this: adding and clearing bump the version, and acceptance, and a regex being safe on a path length, are pure predicates.
- Reading MRT files, choosing a peer, and ADD-PATH records.
- Event callbacks, and one queue shared between two subscriptions.
