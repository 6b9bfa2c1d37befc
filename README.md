# A verified model of the haddock cluster dashboard

Haddock (the "cod" dashboard) watches Couchbase clusters run by the Couchbase
Operator on Kubernetes. A Go server tracks the clusters and their
conditions. It streams Kubernetes events and operator log lines to browsers
over a WebSocket, keeping a replay cache of recent events per cluster, and it
proxies the Couchbase web console under `/cui/<cluster>/`. Two browser pages
show this data: the dashboard (`main.js`, `dashboard.js`) and a single-cluster
page (`cluster-details.js`). A third page renders the server's Prometheus
metrics (`metrics.js`).

This project models that core in Dafny and proves what it promises.

- **Go server.**
  - `ServerState` holds the state of `internal/server` as a value and
    defines each handler as a function on it.
  - `Server` is the same server as a class whose methods update its maps
    in place. Each method is proved to compute the `ServerState` function.
  - `LegacyState` and `LegacyServer` do the same for the older `server/`
    package.
  - `ServerRouting` classifies requests, and `Proxy` covers the proxy's
    path handling.
  - `Messages`, `Events`, `LogWatch` and `LogLevels` cover the message
    type, event relevance, the log streamers and log-level parsing of both
    generations.
  - Go map iteration order is an explicit input (`Listing`) for the loops
    whose effect is a new state: cleanup, draining, routing and broadcasting.
    Each of these is proved to give the same result whatever the order. The
    cluster list that `broadcastClusters` builds is a set instead; see
    "## Left out".
- **Browser pages.**
  - `Colorizer` covers condition colours and tiles. `Highlight` covers
    search-match highlighting.
  - `Streams` covers the scrollable containers, the session gate and the
    batched feeds.
  - `DashboardPage` and `ClusterPage` are the two pages' global state as
    classes.
  - `Metrics` covers snapshot classification, bucket conversion, search,
    filtering and titles. `MetricCards` covers the identity-preserving card
    grid.
  - `Sorting` is the stable sort that `Array.prototype.sort` performs.
  - `Text` holds the string primitives, and `Wrappers` holds `Option`.

Every claim below is a Dafny contract or lemma; the source itself was not
executed.

## Model

| member | source | states |
|---|---|---|
| ServerState.DetermineClientAction | internal/server/server_functions.go:610-643 | a `log` is sent exactly when it carries the client's log session; an `event` is ignored unless its cluster is watched, queued exactly while the client replays, and stamped with the client's event session; a `cachedevent` is sent exactly when its cluster is watched and its session is the client's; any other type is ignored |
| ServerState.SentMessagesAreTheClients | internal/server/server_functions.go:623-642 | whatever is sent or queued to a client is a log of its own log session or an event of a watched cluster in its own event session |
| ServerState.CacheAppend | internal/server/server_functions.go:515-525 | below 1000 entries the event is appended retyped `cachedevent`; at 1000 or more the oldest entry is dropped first; a cache of at most 1000 stays at most 1000 |
| ServerState.CacheHoldsLatest | internal/server/server_functions.go:515-525 | after any run of live events the cache holds exactly the last 1000 (or all) of the old cache followed by the events retyped, oldest first |
| ServerState.StartWatcher | internal/server/server_functions.go:302-329 | the cluster is watched afterwards; an already watched cluster changes nothing; a new one gets its initial events as its cache; nothing else changes |
| ServerState.StartWatcherIdempotent | internal/server/server_functions.go:306-310 | starting a watcher twice is starting it once |
| ServerState.StartAllWatches | internal/server/server_functions.go:218-224 | starting watchers for a list watches exactly the old clusters and the listed ones; newly watched ones hold their initial events; other caches are untouched |
| ServerState.StartAllReadsWatchers | internal/server/server_functions.go:302-329 | starting watchers depends on the watchers and caches alone |
| ServerState.Cleanup | internal/server/server_functions.go:348-387 | exactly the watchers of active clusters survive; the cache of a stopped watcher is dropped, every other cache is kept as it was; nothing else changes |
| ServerState.Connect | internal/server/server_functions.go:90-105 | the new client gets an unused number and a fresh state, and the state stays valid |
| ServerState.Drop | internal/server/server_functions.go:650-666 | a dropped client leaves both the clients and the pending set |
| ServerState.Send | internal/server/server_functions.go:648-669 | a successful write appends the payload to that client's connection and changes nothing else; a failed one drops the client |
| ServerState.DisconnectCleans | internal/server/server_functions.go:125-157 | after a disconnect every remaining watcher serves some other connected client |
| ServerState.ClustersEventsWatches | internal/server/server_functions.go:192-229 | a `clustersevents` request sets the event session, empties the queue, leaves the pending set, replaces the watchlist by the requested clusters, starts their watchers with initial events, and leaves no watcher that no client needs |
| ServerState.LogsRequest | internal/server/server_functions.go:231-297 | an empty session id clears the log session and stops the watcher; any other sets the session and starts a watcher for that session, follow flag and cluster map, whose start time is the parsed one (absent when empty or unparsable) and whose end time is the parsed one when not following and absent when following; only that client changes |
| ServerState.LogsRequestSelects | internal/server/server_functions.go:231-297 | after a `logs` request the client is sent exactly the log messages of the new session |
| ServerState.ProcessPending | internal/server/server_functions.go:417-459 | the client leaves the pending list exactly when it is not replaying; the state stays valid |
| ServerState.ProcessPendingDelivers | internal/server/server_functions.go:427-458 | a client that is not replaying is sent its queue in order up to the first failed write, its queue ends empty, and it stays connected exactly when every write succeeds |
| ServerState.ProcessPendingLocal | internal/server/server_functions.go:417-459 | processing one client changes that client alone |
| ServerState.PartlyDrained | internal/server/server_functions.go:476-482 | processing any subset of the pending clients keeps the state valid |
| ServerState.DrainStep | internal/server/server_functions.go:477-482 | processing one more pending client extends the processed set by that client |
| ServerState.DrainSeq | internal/server/server_functions.go:476-482 | processing a list of clients one after the other keeps the state valid and the known clients the same |
| ServerState.DrainOrder | internal/server/server_functions.go:469-482 | the order in which the snapshot of pending clients is processed makes no difference, for the state and for the clients that finish |
| ServerState.DrainPending | internal/server/server_functions.go:469-491 | after the draining step exactly the replaying clients are still pending |
| ServerState.DrainFinish | internal/server/server_functions.go:485-491 | taking the finished clients off the pending set after processing them all is the draining step |
| ServerState.Route | internal/server/server_functions.go:509-591 | handling an `event`, `log` or `cachedevent` keeps the state valid |
| ServerState.RouteDeliversEvents | internal/server/server_functions.go:537-573 | a live event reaches each connected client watching its cluster, stamped with that client's session: queued (and the client pending) while it replays, written otherwise, and a failed write drops the client |
| ServerState.RouteCaches | internal/server/server_functions.go:515-525 | routing appends a live event to its own cluster's cache as `CacheAppend` says and leaves every other cache alone |
| ServerState.SentStep | internal/server/server_functions.go:537-553 | the first routing loop, on one more client, writes that client's message or notes it for queueing |
| ServerState.QueueStep | internal/server/server_functions.go:561-573 | the second routing loop, on one more client, queues its message and marks it pending when it is still connected, and skips it otherwise |
| ServerState.RouteSeq | internal/server/server_functions.go:537-553 | the first routing loop over any list of known clients keeps the state valid and the known clients the same |
| ServerState.RouteSeqParts | internal/server/server_functions.go:537-553 | the order in which the first routing loop visits the clients does not matter |
| ServerState.QueueSeq | internal/server/server_functions.go:561-573 | the second routing loop keeps the state valid and the connected clients the same |
| ServerState.QueueSeqPart | internal/server/server_functions.go:561-573 | the order in which the second routing loop visits the noted clients does not matter |
| ServerState.RouteInTwoLoops | internal/server/server_functions.go:509-577 | caching, then the send loop over all clients, then the queue loop over the noted ones, is exactly the change `Route` describes |
| ServerState.BroadcastAll | internal/server/server_functions.go:674-713 | after a broadcast the connected clients are exactly those whose write succeeded |
| ServerState.BroadcastPartEnds | internal/server/server_functions.go:674-713 | a broadcast to none of the snapshot changes nothing; to all of it, it is `BroadcastAll` |
| ServerState.BroadcastStep | internal/server/server_functions.go:687-706 | writing to one more client of the snapshot is `sendToClient`'s write or drop |
| ServerState.BroadcastSeq | internal/server/server_functions.go:687-706 | writing to a list of known clients keeps the state valid and the known clients the same |
| ServerState.BroadcastSeqPart | internal/server/server_functions.go:676-706 | the order in which the broadcast writes to the clients does not matter |
| ServerState.RoutedAll | internal/server/server_functions.go:451-456 | one routed payload per message, in order |
| ServerState.RoutableAll | internal/server/server_functions.go:962-965 | one broadcast entry per message, in order |
| ServerState.ReplayStart | internal/server/server_functions.go:922-965 | the replay does something exactly when the cluster has cached events, and keeps the state valid |
| ServerState.ReplayEnd | internal/server/server_functions.go:951-959 | the deferred reset leaves the client no longer replaying |
| ServerState.ReplayAddressed | internal/server/server_functions.go:962-965 | each replayed event, once handled, is sent to the client it was replayed for while that client still watches the cluster in the same session |
| ServerState.CacheAppendTagged | internal/server/server_functions.go:521-523 | live caching keeps every cached entry a `cachedevent` of its own cluster |
| ServerState.AddCluster | internal/server/server_functions.go:717-752 | a live `Unstructured` object not yet known adds its name and puts the new list on the channel; anything else changes nothing |
| ServerState.DeleteCluster | internal/server/server_functions.go:757-812 | a known non-empty name, found directly or through a tombstone, is removed with its conditions and both the list and the conditions are put on the channel; anything else changes nothing |
| ServerState.AddThenDelete | internal/server/server_functions.go:717-812 | adding and then deleting a new cluster leaves the clusters and conditions as they were, with three broadcasts queued |
| ServerState.MapItems | internal/server/server_functions.go:880-887 | the kept conditions are never more than the raw items |
| ServerState.MapItemsMembers | internal/server/server_functions.go:880-887 | a condition is kept exactly when it is a map item of the raw list |
| ServerState.UpdateConditions | internal/server/server_functions.go:833-897 | for a known cluster whose conditions can be read, its list is replaced wholesale and the conditions put on the channel; anything else changes nothing |
| ServerState.ConditionsTracked | internal/server/server_functions.go:717-897 | conditions are only ever held for known clusters |
| Server.Server.constructor | internal/server/server.go:45-54 | a new server has no clients, watchers, clusters, conditions or messages, and is valid |
| Server.Server.Connect | internal/server/server_functions.go:90-105 | registering a connection is `ServerState.Connect` |
| Server.Server.GetActiveClusters | internal/server/server_functions.go:332-344 | the result is exactly the set of clusters some connected client watches |
| Server.Server.StartWatcher | internal/server/server_functions.go:302-329 | the change is `ServerState.StartWatcher` |
| Server.Server.CleanupEventWatchers | internal/server/server_functions.go:348-387 | visiting the watchers in any order makes the change `ServerState.Cleanup` describes |
| Server.Server.SendToClient | internal/server/server_functions.go:648-669 | reports the write's outcome and makes the change `ServerState.Send` describes |
| Server.Server.Disconnect | internal/server/server_functions.go:125-157 | the deferred cleanup of a connection is `ServerState.Disconnect` and keeps the server valid |
| Server.Server.HandleLogsRequest | internal/server/server_functions.go:231-297 | handling a `logs` request is `ServerState.LogsRequest` |
| Server.Server.WatchRequested | internal/server/server_functions.go:216-225 | the loop over the requested clusters adds them to the watchlist and starts their watchers as `StartAll` says |
| Server.Server.HandleClustersEvents | internal/server/server_functions.go:192-229 | handling a `clustersevents` request is `ServerState.ClustersEvents` and keeps the server valid |
| Server.Server.SendQueue | internal/server/server_functions.go:451-456 | the queued messages are written in order; when a write fails the client is dropped and nothing after it is written |
| Server.Server.ProcessPendingClient | internal/server/server_functions.go:417-459 | the change and the result are `ServerState.ProcessPending` |
| Server.Server.ProcessSnapshot | internal/server/server_functions.go:476-482 | processing the snapshot in its order is `ServerState.DrainSeq` |
| Server.Server.DrainPending | internal/server/server_functions.go:469-491 | the first step of `handleMessages`, over the pending clients in whatever order the map yields them, is `ServerState.DrainPending` |
| Server.Server.RemovePending | internal/server/server_functions.go:485-491 | exactly the listed clients leave the pending set |
| Server.Server.RouteToClient | internal/server/server_functions.go:537-553 | one client of the first routing loop is written to, or its message is returned for queueing, as `DetermineClientAction` decides |
| Server.Server.SendOrCollect | internal/server/server_functions.go:537-553 | the first routing loop in a given order is `ServerState.RouteSeq` |
| Server.Server.QueueFor | internal/server/server_functions.go:561-573 | a still-connected client gets the message queued and becomes pending; a gone one is skipped |
| Server.Server.QueueCollected | internal/server/server_functions.go:557-577 | the second routing loop in a given order is `ServerState.QueueSeq` |
| Server.Server.RouteMessage | internal/server/server_functions.go:509-591 | the routing case of `handleMessages`, in whatever order the clients are visited, is `ServerState.Route` |
| Server.Server.BroadcastInOrder | internal/server/server_functions.go:687-706 | writing to the snapshot in its order is `ServerState.BroadcastSeq` |
| Server.Server.BroadcastToAllClients | internal/server/server_functions.go:674-713 | a broadcast, in whatever order the clients are visited, is `ServerState.BroadcastAll` |
| Server.Server.HandleNextMessage | internal/server/server_functions.go:464-597 | one turn of `handleMessages` is `ServerState.HandleNext` and keeps the server valid |
| Server.Server.BroadcastClusters | internal/server/server_functions.go:815-829 | the list of clusters is put on the channel |
| Server.Server.BroadcastConditions | internal/server/server_functions.go:900-917 | the conditions are put on the channel |
| Server.Server.AddCluster | internal/server/server_functions.go:717-752 | the change is `ServerState.AddCluster` |
| Server.Server.DeleteCluster | internal/server/server_functions.go:757-812 | the change is `ServerState.DeleteCluster` |
| Server.Server.ConditionMaps | internal/server/server_functions.go:880-887 | the loop keeps exactly the map items, in order (`MapItems`) |
| Server.Server.UpdateConditions | internal/server/server_functions.go:833-897 | the change is `ServerState.UpdateConditions` |
| Server.Server.SendCachedEvents | internal/server/server_functions.go:922-966 | the replay starts exactly when the cluster has cached events, and ends with the deferred reset |
| Server.Server.Replay | internal/server/server_functions.go:962-965 | every cached event is put on the channel, in order, stamped with the client's event session |
| Server.Server.FinishCachedEvents | internal/server/server_functions.go:951-959 | the deferred reset is `ServerState.ReplayEnd` |
| LegacyState.Connect | server/server.go:100-103 | a new client is registered with an empty watchlist and nothing received, under an unused number |
| LegacyState.StartWatcher | server/server.go:139-150 | the cluster is watched afterwards; an already watched one changes nothing; a new one launches exactly one watcher; nothing else changes |
| LegacyState.StartWatcherIdempotent | server/server.go:143-145 | starting a watcher twice is starting it once |
| LegacyState.StartAllFrame | server/server.go:127-133 | starting watchers neither reads nor changes the watchlists |
| LegacyState.StartAllWatches | server/server.go:129-132 | after the request loop exactly the old and the requested clusters are watched, and the watchers launched are the old ones followed by one per requested cluster not yet watched |
| LegacyState.Cleanup | server/server.go:152-171 | a watcher survives exactly when some connected client watches its cluster; nothing else changes |
| LegacyState.CleanupIdempotent | server/server.go:152-171 | cleaning up twice is cleaning up once |
| LegacyState.RequestWatched | server/server.go:127-135 | after a request every requested cluster has a watcher |
| LegacyState.RequestWatchersNeeded | server/server.go:127-135 | after a request every watcher serves some connected client, and no needed watcher was stopped |
| LegacyState.Disconnect | server/server.go:105-110 | the client is gone and every remaining watcher serves a connected client |
| LegacyState.DeliverReachesWatchers | server/server.go:173-189 | an event is written to exactly the connected clients watching its cluster; a client is dropped exactly when that write fails; the state stays valid |
| LegacyState.UpdateClustersInforms | server/server.go:191-214 | a failed listing changes nothing; otherwise the list is replaced and every client still connected has been sent it |
| LegacyState.PrunedRemoves | server/server.go:165-170 | the watcher loop, in any order, removes exactly the visited watchers of inactive clusters |
| LegacyState.DeliverSeq | server/server.go:178-186 | the delivery loop in a given order keeps the state valid and the watchlists unchanged |
| LegacyState.DeliverSeqPart | server/server.go:178-186 | the order in which the delivery loop visits the clients does not matter |
| LegacyState.InformSeq | server/server.go:203-213 | the cluster-list loop in a given order keeps the state valid and the watchlists unchanged |
| LegacyState.InformSeqPart | server/server.go:203-213 | the order in which the cluster-list loop visits the clients does not matter |
| LegacyServer.Server.constructor | server/server.go:41-48 | a new server has no clients, watchers or clusters |
| LegacyServer.Server.Connect | server/server.go:100-103 | registering a connection is `LegacyState.Connect` |
| LegacyServer.Server.StartWatcher | server/server.go:139-150 | the change is `LegacyState.StartWatcher` |
| LegacyServer.Server.ActiveClusters | server/server.go:156-163 | the result is exactly the set of clusters some connected client watches |
| LegacyServer.Server.CleanupWatchers | server/server.go:152-171 | visiting the watchers in any order is `LegacyState.Cleanup` |
| LegacyServer.Server.HandleRequest | server/server.go:127-135 | one request is `LegacyState.Request` and keeps the server valid |
| LegacyServer.Server.Disconnect | server/server.go:105-110 | the deferred cleanup is `LegacyState.Disconnect` |
| LegacyServer.Server.HandleMessage | server/server.go:175-187 | one message, over the clients in whatever order the map yields them, is `LegacyState.Deliver` |
| LegacyServer.Server.UpdateClusters | server/server.go:191-214 | the change is `LegacyState.UpdateClusters` |
| Messages.Stamped | internal/server/server_functions.go:630 | the copy carries the given session and differs from the message in nothing else |
| Messages.StampedAll | internal/server/server_functions.go:962-965 | every message of the list stamped with the session, in order |
| ServerRouting.MatchesPrefix | internal/server/server_functions.go:66-72 | the loop answers true exactly when the path starts with one of the prefixes |
| ServerRouting.IsApiRequest | internal/server/server_functions.go:27-73 | a request is an API call exactly when it is an XHR, asks for JSON, XML or anything but not HTML, sends JSON, or, unless it is a browser navigation, its path starts with a Couchbase REST prefix |
| ServerRouting.NavigationWinsOverPrefix | internal/server/server_functions.go:49-54 | a browser navigation is never proxied, whatever its path |
| ServerRouting.PathDecides | internal/server/server_functions.go:56-72 | without telling headers exactly the REST paths are proxied |
| ServerRouting.Allowed | internal/server/server_functions.go:1066-1071 | the kept families are never more than the parsed ones |
| ServerRouting.FilterFamilies | internal/server/server_functions.go:1066-1071 | the filter loop keeps exactly `Allowed`, in order |
| ServerRouting.AllowedCounts | internal/server/server_functions.go:1066-1071 | each allowed family is kept as often as it was parsed, every other one never |
| Proxy.FirstSegment | internal/server/server_proxy.go:39 | the two parts put together are the text; the first has no `/`; the second is empty or starts with `/` |
| Proxy.ApiProxyTarget | internal/server/server_proxy.go:17-62 | only 400 and 500 are answered; the request is forwarded exactly when the Referer parses to a path under `/cui/` naming a cluster and the namespace is set; 500 exactly when only the namespace is missing |
| Proxy.ApiProxyForwardsToReferer | internal/server/server_proxy.go:39-61 | a forwarded API request goes to the UI service of the cluster the Referer's first path segment names |
| Proxy.UiProxyTarget | internal/server/server_proxy.go:92-120 | only 400 and 500 are answered; the request is forwarded exactly when the path names a cluster and the namespace is set, to that cluster |
| Proxy.OutboundRequest.DirectApi | internal/server/server_proxy.go:77-85 | the target host and `http` are set and the path is kept |
| Proxy.OutboundRequest.DirectUi | internal/server/server_proxy.go:133-148 | the target host and `http` are set and `/cui/<cluster>` is stripped from the path when it starts with it |
| Proxy.StrippedPathAbsolute | internal/server/server_proxy.go:144-147 | once a path is accepted for a cluster, stripping `/cui/<cluster>` leaves nothing or an absolute path |
| Proxy.RewrittenLocation | internal/server/server_proxy.go:162-164 | the rewritten location lies below `/cui/<cluster>` and stripping that prefix gives back the redirect's path |
| Proxy.RedirectRoundTrip | internal/server/server_proxy.go:144-164 | following a rewritten redirect to an absolute path comes back to the same cluster, and the UI service is asked for the path it redirected to |
| Proxy.RelativeRedirectEscapes | internal/server/server_proxy.go:162-164 | a relative redirect path is glued onto the cluster name, so the next request names a different cluster |
| Proxy.IntendedLocation | internal/server/server_proxy.go:162-164 | the corrected location lies below `/cui/<cluster>` |
| Proxy.IntendedLocationRoundTrip | internal/server/server_proxy.go:144-164 | every redirect rewritten the corrected way comes back to the same cluster, with the redirect's path made absolute |
| Proxy.ProxiedResponse.RewriteRedirect | internal/server/server_proxy.go:151-169 | a 3xx answer whose `Location` parses gets `"/cui/" + cluster + path` as written (below `/cui/<cluster>/` only for an empty or absolute path); the status and every other answer are left alone |
| Proxy.ProxiedResponse.RewriteRedirectCorrected | internal/server/server_proxy.go:151-169 | the corrected step: a 3xx answer whose `Location` parses is pointed below `/cui/<cluster>/` as `IntendedLocation` places it; otherwise nothing changes |
| Proxy.IntendedAgreesOnAbsolute | internal/server/server_proxy.go:162-164 | for an empty or absolute `Location` path the corrected rewrite is exactly the one the server performs |
| Events.IsRelevant | internal/events/events.go:65-84 | an event about the cluster object itself is relevant exactly when it names the cluster; a pod event is relevant exactly when the pod's labels can be read and name the cluster or the operator app; any other kind never is |
| Events.LabelsOnlyForPods | internal/events/events.go:66-74 | the pod labels are only consulted for pod events |
| Events.EmptyClusterMatchesUnlabelled | internal/events/events.go:83 | for the empty cluster name a pod without a cluster label counts, because a missing label reads as "" |
| Events.IsRelevantLegacy | events/events.go:58-77 | the older filter: a pod event whose own labels name `cb_example` or the operator app, or an event about the `cb_example` cluster object |
| Events.LegacyIsSpecialCase | events/events.go:58-77 | the older filter is the newer one for the fixed cluster, reading the event's own labels |
| Events.EventMessage | internal/events/events.go:48-55 | the message carries the type, the cluster, the event's name and text and the object's kind and name, and no session |
| Events.Announce | internal/events/events.go:36-57 | a watched event is put on the channel, typed `event`, exactly when it is relevant |
| Events.Relevant | internal/events/events.go:113-125 | never more initial events than listed |
| Events.GetInitialEvents | internal/events/events.go:87-132 | no namespace or a failed listing gives no events; otherwise the relevant events of the listing, in order |
| Events.RelevantAppend | internal/events/events.go:113-125 | filtering a concatenation is filtering each part |
| Events.RelevantMembers | internal/events/events.go:113-125 | a message is an initial event exactly when it is built, typed `cachedevent`, from some relevant listed event |
| Events.RelevantTagged | internal/events/events.go:115-122 | every initial event is a `cachedevent` of the cluster with no session |
| LogWatch.LineStep | internal/logs/logs.go:128-147 | an undecodable line is sent; a decoded line stops the stream exactly when an end time is set, not following, and the line is later; it is skipped exactly when it does not stop and a cluster is asked for whose `namespace/cluster` it does not carry |
| LogWatch.LogMessage | internal/logs/logs.go:153-157 | a log message carries the raw line and the session |
| LogWatch.Streamed | internal/logs/logs.go:104-161 | never more messages than lines |
| LogWatch.ReadLines | internal/logs/logs.go:102-161 | the read loop puts exactly `Streamed` on the channel |
| LogWatch.StartLogWatcher | internal/logs/logs.go:26-161 | nothing is sent without a namespace, a pod listing, a pod or a stream; otherwise exactly the streamed lines |
| LogWatch.StopCuts | internal/logs/logs.go:136-141 | nothing after the first line past the end time is sent |
| LogWatch.StreamedAppend | internal/logs/logs.go:104-161 | before a stop, streaming a concatenation is streaming each part |
| LogWatch.StreamedFromLines | internal/logs/logs.go:150-157 | every message sent is a log of the session built from a line that passed the filters |
| LogWatch.FollowIgnoresEnd | internal/logs/logs.go:136 | when following, the end time makes no difference |
| LogWatch.LegacyLineStep | logs/logs.go:78-89 | an undecodable line is skipped; a decoded one stops the stream exactly when an end time is set, not following, and the line is later |
| LogWatch.LegacyStreamed | logs/logs.go:64-100 | never more messages than lines |
| LogWatch.StartLogWatcherLegacy | logs/logs.go:24-101 | nothing is sent without a namespace, a pod listing, a pod or a stream; otherwise exactly the streamed lines |
| LogWatch.ReadLinesLegacy | logs/logs.go:63-100 | the read loop puts exactly `LegacyStreamed` on the channel |
| LogWatch.WatchersAgree | internal/logs/logs.go:128-157 | on decodable lines and without a cluster filter the two watchers send the same lines, the newer one stamped with the session |
| LogWatch.UndecodableLine | internal/logs/logs.go:129-134 | a line that does not decode is sent by the newer watcher and dropped by the older |
| LogLevels.Names | internal/logger/logger.go:64-77 | every level has at least one name |
| LogLevels.LevelFromEnv | internal/logger/logger.go:53-80 | a name of a level, in any ASCII case, selects that level; an empty or unknown value gives Info |
| LogLevels.ParseLevel | logger/logger.go:63-80 | a name of a level, in any ASCII case, selects that level; an unknown one gives Info |
| LogLevels.NamesSelect | internal/logger/logger.go:64-77 | each name of each level selects that level in both loggers |
| LogLevels.CaseInsensitive | logger/logger.go:64 | values equal up to ASCII case select the same level |
| LogLevels.LoggersAgree | logger/logger.go:63-80 | the flag parser and the environment reader agree on every value |
| Text.TrimPrefix | internal/server/server_proxy.go:146 | the result is what follows the prefix when the text starts with it, and the text unchanged otherwise |
| Text.TrimPrefixOfConcat | internal/server/server_proxy.go:146 | trimming a prefix off a text that starts with it gives back exactly the rest |
| Text.Lower | static/js/metrics.js:631 | the lower-cased text has the same length and each character is lower-cased on its own |
| Text.ContainsWithin | static/js/metrics.js:549-554 | a fragment found in a name is still found once any text is put before or after the name |
| Sorting.SortBy | static/js/dashboard.js:132-146 | the stable sort keeps the length of its input |
| Sorting.SortByCorrect | static/js/dashboard.js:132-146 | `[...xs].sort` by a numeric key is a permutation of its input, its keys never decrease, and elements with equal keys keep their relative order |
| Sorting.SortByPermutation | static/js/dashboard.js:132-146 | the sorted list holds the same elements, each as often, as the input |
| Sorting.SortBySorted | static/js/dashboard.js:132-146 | the keys of the sorted list never decrease |
| Sorting.SortByStable | static/js/dashboard.js:132-146 | for every key the elements carrying it keep their original relative order |
| Sorting.SortByMember | static/js/dashboard.js:132-146 | an element is in the sorted list exactly when it is in the input |
| Sorting.SmallestBy | static/js/dashboard.js:148-149 | a sort followed by `slice(0, n)` has `min(length, n)` elements |
| Sorting.SmallestByCorrect | static/js/dashboard.js:148-149 | the first `n` of the sort are in key order, drawn from the input, and no element left out ranks before one kept |
| Sorting.SortByPairwise | static/js/core.js:19 | a symmetric relation that held between every two matches still holds after sorting |
| Colorizer.TileColor | static/js/dashboard.js:5-67 | a colour is produced exactly for the statuses `Unknown`, `True` and `False`; any other status yields none |
| Colorizer.TileColorTable | static/js/dashboard.js:5-67 | `Unknown` is grey; under `True` the health types are green, `Error` red, the transitional types orange, `ManageConfig` blue, `Hibernating` purple; under `False` the health types are red and every other type grey, each in both directions |
| Colorizer.CopiesAgree | static/js/cluster-details.js:500-548 | `getConditionColor` agrees with `getTileColor` on the three known statuses and is grey where `getTileColor` gives nothing |
| Colorizer.Priority | static/js/dashboard.js:136-143 | every colour has a rank from 1 to 6 |
| Colorizer.PriorityOrder | static/js/dashboard.js:136-143 | the ranks are distinct and order red, orange, purple, blue, green, grey |
| Colorizer.OverallTileColor | static/js/dashboard.js:70-97 | missing conditions give grey; otherwise the tile colour is grey or a colour some condition has, and no condition's colour outranks it |
| Colorizer.OverallDependsOnColors | static/js/dashboard.js:70-97 | the tile colour depends only on the set of condition colours |
| Colorizer.OverallOrderIndependent | static/js/dashboard.js:70-97 | reordering the conditions does not change the tile colour |
| Colorizer.TileConditions | static/js/dashboard.js:131-149 | a tile lists at most five conditions, or all when fewer |
| Colorizer.TileConditionsCorrect | static/js/dashboard.js:131-149 | the listed conditions are in priority order, drawn from the cluster's, every omitted condition ranks no higher than every listed one, equal ranks keep their order, and they are the head of the full sort |
| Colorizer.TilesOf | static/js/dashboard.js:111-170 | one tile per cluster in key order, carrying the cluster's name, its overall colour and its listed conditions |
| Colorizer.RenderClusterTiles | static/js/dashboard.js:100-171 | no condition map leaves the page unchanged; an empty map shows the placeholder when the page has one; otherwise one tile per cluster |
| Colorizer.RenderConditions | static/js/cluster-details.js:431-499 | the "no conditions" card appears exactly when the page's cluster is absent or has none; otherwise the cards are the cluster's conditions reordered by priority, equal ranks in their original order |
| Highlight.Substring | static/js/core.js:25-27 | `substring(a, b)` is the slice between the two indices, swapped when given the other way round |
| Highlight.HighlightMatches | static/js/core.js:15-31 | no matches, no text, an empty text or an empty match list give the text back; otherwise the result is the wrap of every match in order of descending start |
| Highlight.HighlightRoundTrip | static/js/core.js:15-31 | for in-bounds, non-overlapping matches over markup-free text, removing the inserted tags gives the text back and the result grows by one tag pair per match |
| Highlight.ApplyAllRoundTrip | static/js/core.js:24-28 | wrapping spans in descending order and then stripping the tags gives back the text, longer by one tag pair per span |
| Highlight.ApplyAllPieces | static/js/core.js:24-28 | wrapping spans from the end is rendering the text's plain and marked pieces from the start |
| Highlight.PiecesContents | static/js/core.js:24-28 | the pieces of a text, read without markup, are the text |
| Highlight.PiecesNoMarkup | static/js/core.js:24-28 | pieces of markup-free text carry no markup |
| Highlight.UnmarkRender | static/js/core.js:26 | stripping the tags from rendered pieces leaves their contents |
| Highlight.ApplyAllSuffix | static/js/core.js:27 | wrapping spans inside a prefix leaves whatever follows it untouched |
| Highlight.ApplyAllLength | static/js/core.js:27 | each wrapped span adds exactly the length of one tag pair |
| Highlight.WrapSuffix | static/js/core.js:27 | wrapping one span inside a prefix leaves whatever follows it untouched |
| Highlight.WrapLength | static/js/core.js:26-27 | one wrap adds exactly the length of the open and close tags |
| Highlight.SortedDescending | static/js/core.js:19 | sorting in-bounds, non-overlapping matches by descending start keeps them in bounds and leaves each one wholly after the next |
| Highlight.MarkerFacts | static/js/core.js:26 | the two highlight tags differ from each other and add a fixed length |
| Streams.ScrollHeight | static/js/main.js:59 | the content height is at least the viewport and at least the rows shown |
| Streams.ScrollTo | static/js/main.js:69 | assigning `scrollTop` lands on the value when in range and is clamped to the top or the bottom otherwise; the contents do not change |
| Streams.Append | static/js/main.js:575 | appending keeps the offset and never lowers the bottom |
| Streams.Clear | static/js/main.js:200 | emptying a container leaves no entries and the offset at the top |
| Streams.FlushBox | static/js/main.js:563-593 | a flush appends the batch in order; with auto-scroll the container ends at its bottom, otherwise at the reader's offset; an empty batch changes nothing |
| Streams.FlushAllInOrder | static/js/main.js:563-593 | any series of flushes shows every line once, in arrival order; with auto-scroll off the offset never moves; with it on the container ends near the bottom after a non-empty batch |
| Streams.QueueLine | static/js/main.js:539-561 | the line joins the pending batch after the others, the timer is armed, and nothing shown changes |
| Streams.FlushLines | static/js/main.js:563-593 | the batch moves into the container in arrival order, nothing received is lost, and the timer is disarmed even when the batch was empty |
| Streams.ResetLines | static/js/main.js:197-200 | a logs toggle drops every received line, shown or pending, and keeps the timer and the auto-scroll flag |
| Streams.ScrollLines | static/js/main.js:57-65 | after the reader scrolls, auto-scroll stays on exactly when it was on and the view is within 50 pixels of the bottom |
| Streams.SetAutoScroll | static/js/main.js:67-72 | checking auto-scroll jumps to the bottom; unchecking moves nothing |
| Streams.DashboardRoute | static/js/main.js:289-314 | a cluster list and a condition map are always handled; an event or a log only when its session is the current one; anything else is ignored |
| Streams.ClusterRoute | static/js/cluster-details.js:217-236 | the cluster page handles condition maps always, events and logs under the current session, and never a cluster list |
| Streams.RoutesAgree | static/js/cluster-details.js:217-236 | the two pages route every message alike except the cluster list, which the cluster page ignores |
| Streams.ConditionMap | static/js/cluster-details.js:433 | the decoded condition map has one key per cluster named, the last entry of a name winning |
| Streams.ClusterMap | static/js/main.js:229-235 | every selected cluster, and nothing else, maps to `true` |
| Streams.StartLogs | static/js/main.js:214-247 | the logs request carries the new session, the follow flag, the start time, the end time only when not following, and the selected clusters |
| DashboardPage.AddMissingFacts | static/js/main.js:419-441 | adding labels keeps the old ones first, covers every listed cluster, and keeps labels distinct |
| DashboardPage.KeepListedFacts | static/js/main.js:443-453 | the kept labels are exactly the old labels still listed, distinct when the old ones were |
| DashboardPage.ReconciledCorrect | static/js/main.js:415-454 | after an update the labels name exactly the listed clusters, each once, with the kept labels first in their old order |
| DashboardPage.ReconcileLabels | static/js/main.js:415-454 | the two loops of `updateClusterContainer` compute the reconciled labels |
| DashboardPage.FlushPanel | static/js/main.js:600-618 | a cluster's batch is appended to its container, scrolling to the bottom or keeping the offset as its auto-scroll says |
| DashboardPage.QueueEvent | static/js/main.js:455-538 | a first event of a cluster creates its empty, auto-scrolling container; the event joins that cluster's batch alone; the timer is armed |
| DashboardPage.FlushBatches | static/js/main.js:594-630 | every cluster with a container has its batch flushed and emptied, a cluster without one keeps its batch, no event is lost, and the timer is disarmed |
| DashboardPage.KeepPanels | static/js/main.js:272-280 | exactly the containers of selected clusters remain, untouched |
| DashboardPage.ScrollPanel | static/js/main.js:494-501 | scrolling one cluster's container turns its auto-scroll off once more than 50 pixels above the bottom and touches no other container |
| DashboardPage.SetPanelAutoScroll | static/js/main.js:503-507 | a cluster container's checkbox sets that container's auto-scroll to its new state, checking jumps it to the bottom, unchecking moves nothing, and no other container changes |
| DashboardPage.PanelAutoScrollResumes | static/js/main.js:494-507 | re-checking the box after a scroll turned auto-scroll off turns it back on, and the scroll event fired by the jump leaves it on |
| DashboardPage.Dashboard.constructor | static/js/main.js:1-22 | the page starts with no sessions, no lines, no containers, no labels and nothing sent |
| DashboardPage.Dashboard.HandleLogsSelection | static/js/main.js:197-260 | the log view is always reset; enabling without follow or start time unchecks and sends nothing; enabling otherwise opens a new session and sends the logs request; disabling clears the session and the search index and sends the stop request |
| DashboardPage.Dashboard.HandleLogsClusterSelection | static/js/main.js:189-195 | with logs off nothing changes; with logs on it is `handleLogsSelection` with the box checked: the log container is reset, and either the box is unchecked with nothing sent and the session kept, or a fresh session starts and its request is sent; events, indexes, labels and tiles stay |
| DashboardPage.Dashboard.HandleClusterSelection | static/js/main.js:261-288 | a new event session when any cluster is selected and none otherwise; containers of unselected clusters go; the `clustersevents` request is sent |
| DashboardPage.Dashboard.UpdateLogs | static/js/main.js:539-561 | the line joins the pending batch and the search index |
| DashboardPage.Dashboard.FlushLogBatch | static/js/main.js:563-593 | the log timer's flush, as `FlushLines` states |
| DashboardPage.Dashboard.UpdateEvents | static/js/main.js:455-538 | the event joins its cluster's batch and the search index |
| DashboardPage.Dashboard.FlushEventBatches | static/js/main.js:594-630 | the event timer's flush, as `FlushBatches` states |
| DashboardPage.Dashboard.OnLogsScroll | static/js/main.js:57-65 | the logs container's scroll rule, as `ScrollLines` states |
| DashboardPage.Dashboard.OnAutoScrollChange | static/js/main.js:67-72 | the auto-scroll checkbox, as `SetAutoScroll` states |
| DashboardPage.Dashboard.OnPanelScroll | static/js/main.js:494-501 | a cluster container's scroll rule, as `ScrollPanel` states |
| DashboardPage.Dashboard.OnPanelAutoScrollChange | static/js/main.js:503-507 | a cluster container's auto-scroll checkbox, as `SetPanelAutoScroll` states; nothing else on the page changes |
| DashboardPage.Dashboard.UpdateClusters | static/js/main.js:406-412 | both checkbox lists name exactly the listed clusters |
| DashboardPage.Dashboard.HandleMessage | static/js/main.js:289-314 | an ignored message changes nothing; a current-session log is queued and indexed, a current-session event queued and indexed, a cluster list reconciles the labels, a condition map redraws the tiles; in each case the other containers, indexes, sessions and outbox stay |
| ClusterPage.ShowEvent | static/js/cluster-details.js:337-365 | the event is appended at once, jumping to the bottom when auto-scroll is on and keeping the offset otherwise |
| ClusterPage.ClusterDetails.constructor | static/js/cluster-details.js:1-25 | the page starts for its cluster with no sessions, no lines, no events and nothing sent |
| ClusterPage.ClusterDetails.OnWatchEventsChange | static/js/cluster-details.js:76-86 | the events container is emptied; checking opens a fresh event session for this cluster alone; unchecking closes it with an empty cluster list |
| ClusterPage.ClusterDetails.OnLogsChange | static/js/cluster-details.js:89-135 | the dashboard's log toggle, with this cluster the only entry of `clusterMap` |
| ClusterPage.ClusterDetails.UpdateLogs | static/js/cluster-details.js:366-385 | the line joins the pending batch and the search index |
| ClusterPage.ClusterDetails.FlushLogBatch | static/js/cluster-details.js:386-408 | the log timer's flush, as `FlushLines` states |
| ClusterPage.ClusterDetails.UpdateEvents | static/js/cluster-details.js:337-365 | the event is shown at once and joins the search index |
| ClusterPage.ClusterDetails.OnLogsScroll | static/js/cluster-details.js:59-66 | the logs container's scroll rule, as `ScrollLines` states |
| ClusterPage.ClusterDetails.OnAutoScrollChange | static/js/cluster-details.js:69-73 | the auto-scroll checkbox, as `SetAutoScroll` states |
| ClusterPage.ClusterDetails.HandleMessage | static/js/cluster-details.js:217-236 | an ignored message changes nothing; a current-session log is queued and indexed, a current-session event shown and indexed, a condition map re-renders this cluster's cards; in each case the rest of the page, the sessions and the outbox stay |
| Metrics.MaxFinite | static/js/metrics.js:275 | no finite bound of the list exceeds the result |
| Metrics.SortBuckets | static/js/metrics.js:269-286 | the sorted buckets are a reordering of the given ones |
| Metrics.SortBucketsCorrect | static/js/metrics.js:269-286 | the sorted buckets are a permutation of the input in ascending bound, `+Inf` last |
| Metrics.IncrementsAt | static/js/metrics.js:936-956 | the first count is the first bucket's, each later count is the rise over the previous bucket, never below zero |
| Metrics.DecimalText | static/js/metrics.js:941 | an integer's text is non-empty and starts with a digit or a minus sign |
| Metrics.BucketLabel | static/js/metrics.js:941 | a label is `+Inf` exactly for the unbounded bucket |
| Metrics.Labels | static/js/metrics.js:940-942 | one label per bucket, in order |
| Metrics.ConvertBuckets | static/js/metrics.js:936-956 | one label and one count per bucket; the first count as is, each later one the rise over its predecessor, never below zero |
| Metrics.IncrementsSum | static/js/metrics.js:936-956 | for cumulative buckets the per-bucket counts add up to the last cumulative count |
| Metrics.Put | static/js/metrics.js:330 | `d[k] = v` sets the value; a new key goes last, an existing key keeps its place, and keys stay distinct |
| Metrics.FirstWithBuckets | static/js/metrics.js:263-266 | the first sample with buckets, and none exactly when no sample has buckets |
| Metrics.FirstWithQuantiles | static/js/metrics.js:298-301 | the first sample with quantiles, and none exactly when no sample has quantiles |
| Metrics.HistogramOf | static/js/metrics.js:262-296 | a histogram carries the family's name and help and the first bucketed sample's count, sum, labels and buckets sorted by bound; none when no sample has buckets or that one has none |
| Metrics.SummaryOf | static/js/metrics.js:297-318 | a summary carries the family's name and help and the first sample's quantiles sorted by quantile; none when no sample has quantiles or that one has none |
| Metrics.ValuesOf | static/js/metrics.js:322-327 | one value per sample, with its labels, in order |
| Metrics.SimpleOf | static/js/metrics.js:319-334 | a card exists exactly when the family has samples, and holds the family's name, type and every sample's value |
| Metrics.OrganizeMetrics | static/js/metrics.js:222-260 | the loop over the families followed by the two sorts computes `Organize` |
| Metrics.Collect | static/js/metrics.js:229-252 | the loop collects at most one histogram, summary or card per family |
| Metrics.Organize | static/js/metrics.js:222-259 | the two sorts only reorder the collected histograms and summaries; the simple cards are the collected ones |
| Metrics.HistogramRouting | static/js/metrics.js:234-246 | a histogram is collected exactly when some histogram family yields it |
| Metrics.SummaryRouting | static/js/metrics.js:234-246 | a summary is collected exactly when some summary family yields it |
| Metrics.SimpleKeysValid | static/js/metrics.js:330 | the simple metric names are listed once each |
| Metrics.SimpleRouting | static/js/metrics.js:234-246 | a name has a card exactly when some counter, gauge or untyped family of that name has samples |
| Metrics.LaterFamilyWins | static/js/metrics.js:330 | a later family of the same name replaces the earlier card |
| Metrics.OtherTypesDropped | static/js/metrics.js:234-246 | families of any other type change nothing |
| Metrics.OrganizeCorrect | static/js/metrics.js:254-256 | histograms and summaries end sorted by name and lose nothing; the simple cards are as collected |
| Metrics.SearchMetrics | static/js/metrics.js:170-201 | an empty query does nothing; no result shows the "no matching metrics" message; otherwise the results are separated by category |
| Metrics.Separate | static/js/metrics.js:180-190 | the results yield at most one listed item each |
| Metrics.SeparateCorrect | static/js/metrics.js:180-190 | every result lands in its category's list, nothing else does, and some list is non-empty exactly when there are results |
| Metrics.CardType | static/js/metrics.js:430 | a card's type is the metric type lower-cased, never empty |
| Metrics.FilterMetrics | static/js/metrics.js:626-668 | `all` shows every card, wrapper and section; another filter shows exactly the cards of that type and the section that filter names, leaving wrappers as they were |
| Metrics.FilterExclusive | static/js/metrics.js:648-666 | two different type filters never both show a card, and one filter never shows two differently titled sections |
| Metrics.IsLikelyBytes | static/js/metrics.js:549-554 | a name judged a byte count has an underscore and at least five characters |
| Metrics.MarkerMakesBytes | static/js/metrics.js:549-554 | a name containing `_bytes`, `_size`, `_capacity` or `_memory` anywhere is judged a byte count |
| Metrics.LikelyBytesExtends | static/js/metrics.js:549-554 | a name that looks like a byte count still does with text around it |
| Metrics.SpaceUnderscores | static/js/metrics.js:1078 | each underscore becomes a space and nothing else changes |
| Metrics.SplitCamel | static/js/metrics.js:1079 | splitting camel case never shortens the text and brings in no underscore |
| Metrics.Capitalize | static/js/metrics.js:1080 | upper-casing word starts keeps the length and each character's class, and no word starts with a lower-case letter |
| Metrics.FormatMetricTitle | static/js/metrics.js:1076-1081 | a title has no underscore and is at least as long as the name |
| Metrics.FormatMetricTitleCorrect | static/js/metrics.js:1076-1081 | a title has no underscore, is at least as long as the name, and no word in it starts with a lower-case letter |
| MetricCards.Index | static/js/metrics.js:351-366 | the first loop makes one entry per metric name |
| MetricCards.IndexFacts | static/js/metrics.js:351-366 | positions are never forgotten or changed, every shown name gets one, and each entry carries its name's final position and its metric |
| MetricCards.IndexKeeps | static/js/metrics.js:353-355 | a remembered name keeps its position and a new one is placed after every remembered one |
| MetricCards.IndexGrows | static/js/metrics.js:351-366 | with the snapshot's distinct names, the position map grows by exactly the number of names it did not know |
| MetricCards.IndexNumbersNew | static/js/metrics.js:353-365 | with the snapshot's distinct names, each new name gets the number of names remembered when it is reached: the old ones plus the new ones listed before it |
| MetricCards.NewInListingOrder | static/js/metrics.js:351-366 | new names are numbered in the order the snapshot lists them |
| MetricCards.IndexPositionsOk | static/js/metrics.js:353-365 | positions stay one per name and below the number of names remembered |
| MetricCards.IndexAgain | static/js/metrics.js:351-366 | indexing the same names again against the positions just recorded changes nothing |
| MetricCards.OrderedFacts | static/js/metrics.js:368-369 | the sorted entries are the dictionary's metrics, each exactly once, in strictly increasing position |
| MetricCards.ExistingFinds | static/js/metrics.js:345-348 | with distinct names, every card in the grid is found under its own name |
| MetricCards.Place | static/js/metrics.js:371-388 | the second loop places one card per entry |
| MetricCards.PlaceFrame | static/js/metrics.js:371-388 | an entry whose name the grid has gets that card, any other entry a fresh one, and no card is lost |
| MetricCards.PlaceContents | static/js/metrics.js:371-388 | each entry gets its own card, holding that entry's data |
| MetricCards.Layout | static/js/metrics.js:396-403 | the grid shows the "no metrics" message exactly when there are no cards, and otherwise the cards in order |
| MetricCards.RenderValid | static/js/metrics.js:335-424 | a render leaves a consistent grid whose positions extend the old ones |
| MetricCards.Render | static/js/metrics.js:335-424 | after a render the position map keeps every remembered position and holds exactly the remembered names plus the shown ones |
| MetricCards.RenderShows | static/js/metrics.js:335-424 | the message appears exactly when there are no metrics; otherwise one card per metric, each holding that metric's data |
| MetricCards.RenderReuses | static/js/metrics.js:376-380 | a card already in the grid whose metric is still there is reused, not recreated |
| MetricCards.RenderKeepsOrder | static/js/metrics.js:368-369 | two metrics shown before and after a render keep their relative order |
| MetricCards.RenderIdempotent | static/js/metrics.js:403-423 | rendering the same metrics twice leaves the page as the first render did |
| MetricCards.MetricsGrid.constructor | static/js/metrics.js:335-342 | the grid starts with no positions, no children and no cards |
| MetricCards.MetricsGrid.RenderMetricCards | static/js/metrics.js:335-424 | the page's state after `renderMetricCards` is `Render` of the old state |
| MetricCards.MetricsGrid.RecordPositions | static/js/metrics.js:351-366 | the first loop records each name's position and builds the entries that `Index` describes |
| MetricCards.MetricsGrid.CreateOrReuse | static/js/metrics.js:371-388 | the second loop reuses or creates the cards that `Place` describes and marks exactly the names it placed |
| MetricCards.MetricsGrid.FindCards | static/js/metrics.js:345-348 | the cards found by `data-metric-name` are `Existing`, and each name found leads to a card of that name |
| MetricCards.MetricsGrid.RemoveVanished | static/js/metrics.js:390-395 | only cards found under a name the snapshot no longer has leave the grid; every other child stays and nothing is added |
| MetricCards.MetricsGrid.Arrange | static/js/metrics.js:396-423 | the grid ends with the message when there are no cards, otherwise with exactly the cards in order, whether `needsUpdate` rebuilds it or it was already right |

## Left out

- Locks, goroutines, the broadcast channel's blocking and `context` cancellation are not modelled. Handlers run one at a time. A cancelled watcher is one removed from its registry, and the channel is the sequence of messages not yet handled.
- Lock ordering is not modelled. The internal server's `handleMessages` holds the clients read lock while `sendToClient` takes the write lock. The legacy `handleConnections` holds `clientsMutex` and then takes `watchersMutex`, while `cleanupWatchers` takes them the other way round. A sequential model cannot show either problem.
- Kubernetes clients, informers, pod listing and pod labels are inputs: the initial events, the label sets, the cluster listing (or its failure) and the operator pod's log lines are parameters.
- WebSocket upgrade, JSON encoding and decoding, HTTP handlers, templates, static file serving and `httputil.ReverseProxy` mechanics are not modelled. Only the decisions they make are: proxy or not, which target, which path, which status.
- Whether a write to a client's connection succeeds is an input to every operation that writes. Connection errors are not modelled otherwise.
- `logger.Log.Fatal` on an unset `WATCH_NAMESPACE` ends the Go process. The model sends nothing in that case, because process exit is outside the model.
- `LogWatch`: a final log line without a newline is dropped. `ReadString` returns it together with `io.EOF`, and the loop stops there.
- `LogWatch`: the start time is not modelled. `SinceTime` only selects which lines the Kubernetes API returns, and that selection happens outside the read loop. Time parsing of `ts` and `endTime` is an input.
- `internal/server/server.go` declares `Client` and `Server` without fields that `server_functions.go` uses: `stateMutex`, `sendingCached`, `eventQueue`, `pendingClients` and `clientsMapMutex`. The model follows `server_functions.go`.
- `StartLogWatcher` in `internal/logs/logs.go` takes one cluster name, while the server passes a cluster map. The model follows `logs.go` as written.
- Server.Server.BroadcastClusters: the cluster list is modelled as a set of names. `broadcastClusters` builds its slice by ranging over the `clusters` map, so the browsers receive the names in Go's map order, which varies from call to call. That order is not modelled.
- The cached-event replay launched by the `clustersevents` request runs on its own goroutine. It is modelled as one method that starts the replay, sends the cached events and performs the deferred reset.
- The pending-client queue is a map keyed by client number, not a per-client slice.
- Legacy server: a client dropped after a failed write keeps its watchlist, and that client's later requests are still handled. This is as written.
- Legacy server: the nested loop over every client's watchlist is modelled as the union of the watchlists (`ActiveClusters`). `EventMessage` is a cluster name plus an opaque body.
- LogLevels.LevelFromEnv: `strings.ToLower` is modelled as ASCII lower-casing, so only ASCII case differences are ignored. Go also maps some non-ASCII letters onto ASCII ones: U+0130 (capital I with dot) becomes `i` and the Kelvin sign U+212A becomes `k`. So `WARNİNG` selects Warn in the server but Info in the model, and `PANİC` likewise.
- LogLevels.ParseLevel: the same ASCII-only lower-casing, with the same differences for U+0130 and U+212A.
- Metrics: `toLowerCase` on metric types is modelled as ASCII lower-casing. Unicode case mapping is not modelled.
- Highlight.HighlightMatches: strings are sequences of Unicode scalar values. JavaScript's `substring` and the match indices count UTF-16 code units, so the two disagree on text outside the Basic Multilingual Plane.
- `localeCompare` is an abstract collation key passed to `Metrics.Organize`. Locale rules are not modelled.
- `parseFloat`, `toString` of non-integers, `formatBytes`, `formatNumber`, `toLocaleString` and `toISOString` are not modelled. Bucket bounds, counts and metric values are integers.
- Streams.StartLogs: the start and end times are sent as entered. The browser's conversion to RFC 3339 with `toISOString` is not modelled.
- Colorizer.TileConditions: a condition whose status is not `True`, `False` or `Unknown` gets no colour. The source's comparator then returns `NaN`, and the engine orders such elements as it chooses. The model ranks them after grey.
- Session ids come from a counter, so each new id differs from every earlier one. `Date.now()` and `crypto.getRandomValues` are not modelled.
- `setTimeout` timers are a flag (`timerArmed`). The flush runs as an explicit step when the timer fires. Search debouncing is not modelled.
- The DOM is modelled as containers holding entries and a `scrollTop`, where each entry is one row of a fixed height. Element construction, `innerHTML` markup, CSS classes, tooltips, charts and page navigation are not modelled.
- Fuse.js indexing and scoring are not modelled. Search results and match indices are inputs, and adding to an index is appending to a list.
- The metrics page's polling (`startMetricsRefresh`, `fetchAndDisplayMetrics`) and chart rendering (`renderGraphMetrics`, Chart.js) are not modelled. Only the data handling and the card grid are.
- Native-histogram buckets (array form) are not modelled separately. They reach the model as buckets with an upper bound and a count, like the classic form.
- `handleMetricsEndpoint` is not modelled beyond its allow-list filter (`ServerRouting.FilterFamilies`). The rest is an HTTP fetch and prom2json parsing.

## Findings

| source | as written | input that shows it | evidently intended | confidence | as-written member | corrected member |
|---|---|---|---|---|---|---|
| internal/server/server_proxy.go:162-164 | the rewrite `"/cui/%s%s"` glues the `Location` path straight onto the cluster name | cluster `cb` redirecting to the relative path `index.html` gives `/cui/cbindex.html`, whose first segment names a cluster `cbindex.html` | the redirect stays below `/cui/cb/` | medium; not executed | Proxy.RelativeRedirectEscapes | Proxy.IntendedLocationRoundTrip |

`Proxy.ProxiedResponse.RewriteRedirect` models the rewrite as written. `Proxy.ProxiedResponse.RewriteRedirectCorrected` uses the corrected `Proxy.IntendedLocation`, which `Proxy.IntendedLocationRoundTrip` proves always comes back to the same cluster. For empty or absolute paths the two are the same, as `Proxy.IntendedAgreesOnAbsolute` shows.
