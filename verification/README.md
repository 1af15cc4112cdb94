# MoHA: the leader lease protocol and its neighbours, in Dafny

MoHA keeps a group of MySQL databases available. Every database has an agent; the agents share an etcd store, elect one
leader among themselves, and only the leader's database may take writes. This project models that protocol and proves what
it keeps over every run: at most one writable database, one leader per term, and no follower that is ahead of its leader.
Around it stand the pieces the protocol leans on: the lease monitor, the watch on the leader key, the election ranking, the
leader loop as an object and its refinement of the protocol, admission and recovery, shutdown, single point mode, the
planned switch, the supervisor's event descriptor, the etcd directory tree and the binary log list.

`dafny verify dfyconfig.toml` checks everything.

## How it is modelled

`Cluster` is a timed transition system over one etcd store and any number of agents. A step lets time pass, lets etcd drop a
lease whose time is up, or is one of 34 actions of an agent, its database, its operator or its supervisor; requests and
replies are separate steps, so anything may happen between an etcd transaction and its answer, including a crash. A run is
any sequence of enabled steps from the empty store. Theorems about runs quantify over all of them.

Code that works by loops and updates keeps that form: `LeaderLoop`, `LeaseMonitor`, `Watch`, `Election`, `SinglePoint`,
`Switch`, `EventFd`, `DirTree` and `Binlog` have methods with loops and, where the source has objects, classes. etcd, MySQL,
clocks and the kernel answer through parameters.

### Premises

The source does not give its invariants without these; each is written as a predicate or a guard in the model.

- Timing (`LeaseSafety.TimingSafe`): reply delay + 1 s of truncation + timer lateness + time for the database to stop is
  within `ShutdownThreshold`, and the same without the second is below `LeaderLeaseTTL`. An agent that is killed alone has its
  database stopped or made read-only again within that stop time.
- Operators (`LeaseSafety.Careful`): `/setReadWrite`, and a `/setReadOnly` that ends up rolled back, are asked only while the
  node leads, from the won transaction to the end of the reign. `/changeMaster` is asked only of a leader that is serving.
- Winners (`Terms.CurrentWinner`): a node that wins a campaign holds the global term.
- Positions (`Logs.Fresh`): a winner publishes no position beyond its database's by the previous leader's count, which
  uploading it gives a node that follows that leader or led itself (`Logs.UploadIsFresh`); a follower that is admitted was
  compared at a position past everything but its last transaction, by the same count; and if its stored term had been reset or
  never persisted, it brings no transactions.
- Replication (`Logs.Supplies`): a node that does not lead applies the log of a master whose log stems from a term not before
  the node's stored term nor before a reign of its own. A node that is watching always does (`Logs.WatchingMayCopy`). It may do
  so in any phase, also while it prepares a campaign or its agent is down.
- In `Cluster`, a failed `SetReadWrite` leaves the database read-only, `Close` is one step, every reign has its own stop
  channel, and the cleaner runs only after the database has stopped. `LeaderLoop` and `Shutdown` drop the first two.
- A failed etcd call has either taken effect or never will. Replication copies a prefix of the master's log. A node is
  identified with its server UUID.

### Where the code falls short of what it promises

Each of these is stated with its exact condition. In the runs of the cluster named here every step but one keeps the premises.

- The lease guide asks for a threshold above the time MySQL takes to stop. That is not enough:
  `LeaseTightness.ConfigurationExact`.
- A leader that has resigned still accepts `/setReadWrite`, and a `/setReadOnly` that is rolled back opens its database:
  `Careless.OpeningExact`, with the runs `LeaseTightness.CarelessOperator` and `LeaseTightness.RefusedReadOnly`.
- Campaigns do not compare terms, so a stale winner turns the global term back: `Terms.TracksExactly`, `Hazards.StaleWinner`.
- A node without a stored term is admitted unchecked. Besides new nodes these are nodes that resumed single point mode, which
  stores 0, and nodes whose term was not persisted, an error that is dropped: `Forgetting.ZeroTermMeansNew`,
  `Hazards.ForgottenTerm`, `Followers.UnpersistedTerm`.
- Followers are compared by the transactions of the last leader only, and at a position that may be cached since their own
  election: `Gtid.ComparisonExact`, `Ties.TiedPositions`, `Followers.CachedPosition`.
- A winner publishes its count of whatever node it follows, and followers compare bare numbers: `Gtid.PublishedExact`,
  `Followers.ForeignCount`.
- The relay log is not stopped between the comparison and the redirection: `Logs.CopyExact`, `Followers.LateRelayLog`.
- The database is not read-only at every top of the leader loop: two undo calls ignore their failure, and between reigns it
  can be opened by hand: `LeaderLoop.Server.LeaderLoop`, `LeaseTightness.OpenAtTop`.
- `isClosed` does not mean read-only, and a late opening survives a shutdown or a resignation, in a resumed reign even before
  anything has closed the database: `Shutdown.LateOpenExact`, `Shutdown.ClosedButWritable`, `Shutdown.OpenedTooLate`,
  `Shutdown.ResumeLeftOpen`.
- A single point master may count a registration from before it began to wait, if etcd drops its lease late:
  `SinglePoint.LatenessExact`.
- The mark of single point mode is removed without asking whose it is, so a node that has resigned can remove that of its
  successor: `Recovery.StepMarked`, `Recovery.AnothersMark`.
- Watching again without a revision can miss the end of the reign: `Watch.LatestWatchExact`, `Watch.MissesEnd`.
- The switch tool goes on after it has reopened the master, without closing it, and leaves it closed when a changeMaster
  request gets no answer: `Switch.SwitchExact`, `Switch.NeverLeftClosed`.
- Two process ids between two reads of the event descriptor are added up: `EventFd.DeliversExactly`.
- The binary log list silently leaves out numbers of more than six characters: `Binlog.CompleteExactly`.

## Model

| member | source | states |
|---|---|---|
| `LeaseSafety.RunSafe` | agent/leader.go:205-346 | every run with careful operators and safe timing keeps the invariant: a writable database's node owns the leader key, and the key has no lease or one that outlives the last moment the database can be writable |
| `LeaseSafety.StepSafe` | agent/server.go:410-588 | each single step of any node, of etcd or of time keeps that invariant for all nodes |
| `LeaseSafety.WritableOwns` | docs/lease.md:144-150 | in such states a writable database belongs to the owner of the leader key |
| `LeaseSafety.ElectionActorSafe` | agent/leader.go:205-265 | reading, granting, committing, losing or receiving a campaign or resume keeps it for the acting node |
| `LeaseSafety.TimerActorSafe` | agent/leader.go:267-346 | opening the database, renewals, late stamps and the monitor's look keep it for the acting node |
| `LeaseSafety.OperatorActorSafe` | agent/http.go:70-138 | the manual endpoints with the rollback of a refused read-only request, resignation, shutdown and crash keep it for the acting node |
| `LeaseSafety.SpmActorSafe` | agent/single_point.go:28-136 | the lease-free campaign, resume and return keep it for the acting node |
| `LeaseSafety.LocalActorSafe` | agent/server.go:214-222 | following, stopping, cleaning and restarting keep it for the acting node |
| `LeaseSafety.OperatorExact` | agent/http.go:92-138 | a request that opens a database by hand, read-write or a read-only request rolled back, keeps the invariant if and only if its node leads |
| `LeaseTightness.OneWriter` | docs/lease.md:140-152 | with safe timing no run of any length and any number of nodes has two writable databases |
| `LeaseTightness.TwoWriters` | agent/leader.go:312-346 | every configuration with two nodes, room for a renewal and a threshold below delay + 1 s + lateness + stop has a run with two writable databases |
| `LeaseTightness.ConfigurationExact` | docs/lease.md:140-155 | such a configuration never has two writable databases if and only if its threshold is at least delay + 1 s + lateness + stop |
| `LeaseTightness.ThresholdExact` | agent/server.go:105-111 | a threshold is adequate for every longer TTL if and only if it is at least delay + 1 s + lateness + stop |
| `LeaseTightness.CarelessOperator` | agent/http.go:119-138 | under every configuration a run ends with two writable databases when read-write is asked of a leader that has resigned |
| `LeaseTightness.RefusedReadOnly` | agent/service_manager.go:127-157 | under every configuration a run ends with two writable databases when a read-only request to a leader that has resigned is rolled back |
| `LeaseTightness.OpenAtTop` | agent/server.go:419-421 | a run in which a node that has resigned is at the top of its loop with a writable database, opened by hand |
| `Careless.OpeningExact` | agent/http.go:92-138 | in a safe state with another node, opening by hand the database of a node that leads or does not hold the key can be continued, with careful operators, to two writable databases if and only if the node does not lead |
| `Careless.RunOwnerKnown` | agent/leader.go:365-384 | in every run the owner of the leader key is one of the nodes, which the theorem above asks of its state |
| `Terms.RunTerms` | agent/leader.go:365-401 | with current winners, every run keeps reign t at index t, the store at the last reign, and every stored term and held snapshot within the global term; past reigns never change hands |
| `Terms.TermCountsWins` | docs/multi_slaves.md:51-54 | over any run the global term grows by exactly the number of campaigns won |
| `Terms.StepRaises` | agent/leader.go:218-254 | a campaign won, leased or lease-free, raises the global term by one; resumes and all other steps leave it |
| `Terms.WinRaisesExactly` | agent/leader.go:251-254 | a campaign that wins raises the global term by one if and only if its node holds the global term |
| `Terms.TracksExactly` | docs/multi_slaves.md:51-54 | over any run the term grows by one at every campaign won and at no other step, if and only if every winner is current |
| `Terms.OneLeaderPerTerm` | agent/leader.go:251-254 | two leader keys with the same term, anywhere in a run, have the same owner, and terms never fall |
| `Terms.NobodyAhead` | agent/leader.go:65-130 | in every reachable state stored terms and the terms of snapshots are within the global term, a deciding node is within the term it read, and the subtraction of one from it does not wrap |
| `Terms.AcceptedAtLeaderTerm` | agent/server.go:813-896 | a node within its leader's term is accepted only at exactly that term: the branch marked as impossible is never taken |
| `Admission.AdmittedExactly` | agent/server.go:813-896 | a node within its leader's term is admitted if and only if its term is 0, is the leader's, or is one below and its position, cached or else counted on its database, is not beyond the leader's; it ends at the leader's term, with the position it was compared at |
| `Admission.ReadmittedAfterRestart` | agent/server.go:831-836 | a node whose stored term is the leader's is admitted again after a restart and a read, while that leader holds the key |
| `Admission.AdmissionHolds` | agent/server.go:813-836 | a node that is admitted and whose term is persisted can crash, come back and be admitted again under the same leader |
| `Admission.UploadedExactly` | agent/campaign.go:72-107 | the position a campaign is prepared with is one past the count of the node itself if it led last and of its master if not; where there is nothing to count, the one keeps what it had and the other has none |
| `Gtid.ComparedIsContained` | agent/server.go:857-865 | for nodes of one history, a winner that admits a follower at a position past everything but the follower's last transaction holds the follower's whole log |
| `Gtid.ComparisonExact` | agent/server.go:838-865 | compared at any position, fresh or cached, every follower that is ahead is kept out, whoever wins, if and only if the position is past all but its last transaction; a position not beyond the log is so exactly when it is up to date and the counting leader wrote last |
| `Gtid.PublishedExact` | agent/leader.go:365-384 | a winner keeps out every follower that is ahead and compared at its own position, if and only if it publishes no more than its own position by that count |
| `Gtid.LastDecidesInclusion` | pkg/mysql/mysql.go:42-59 | for gapless GTID sets, comparing last ids is set inclusion, both ways |
| `Gtid.LastDeterminesSet` | pkg/mysql/mysql.go:56-58 | a normalized set holds every id up to its last one if and only if it is one interval from 1 |
| `Gtid.TxnIdIsLast` | pkg/mysql/mysql.go:52-57 | the position of a normalized set is one past its greatest id, whatever gaps it has |
| `Gtid.EndTxnIsTxnId` | agent/service_manager.go:249-283 | the position read off a log's executed GTID set is one past the count of that UUID's transactions, and is absent exactly when there are none |
| `Gtid.NumberedIsExecuted` | agent/service_manager.go:249-283 | a numbered log holds exactly the transactions of its executed GTID set |
| `Gtid.ExecutedHolds` | agent/service_manager.go:249-283 | a transaction is in a numbered log if and only if its id is in the interval the executed set has for its UUID |
| `Logs.RunSound` | agent/server.go:776-899 | every run under all premises keeps single writer, terms, stored terms and logs together: each reign starts from a prefix of the one before, and every node's log is a prefix of one reign's |
| `Logs.FollowerLogContainment` | docs/multi_slaves.md:46-60 | in every such run a node that holds the global term, or watches the leader under it with a term that was not persisted, has executed nothing its leader has not |
| `Logs.AdmittedWithinElection` | agent/server.go:813-899 | a node admitted to a term for the first time has executed nothing missing from the leader's log at its election |
| `Logs.WatchingMayCopy` | agent/server.go:490-504 | a node that watches follows a master that led the reign it was admitted to, so it may always apply that master's log |
| `Logs.CopyExact` | agent/server.go:488-499 | in a sound state, a follower at the global term that is not ahead of its master copies without getting ahead of its leader, whatever it copies, if and only if that master has nothing the leader lacks |
| `Logs.UsefulIsContained` | agent/server.go:776-781 | a master that leads or holds the global term has nothing the leader lacks, and such masters are the ones the premise on replication allows a node at the global term |
| `Logs.UploadIsFresh` | agent/campaign.go:72-107 | uploading the election log leaves a current node that follows the last leader, or led last and wrote, with a position that is not beyond its database's |
| `Logs.RunNumbered` | agent/campaign.go:72-107 | every run leaves every log numbered without gaps per UUID, which the comparison of last ids relies on |
| `Hazards.StaleWinner` | agent/leader.go:251-254 | a run with premises kept up to the last step, a campaign by a node that sat out two reigns, turns the term from 2 to 1 |
| `Hazards.ForgottenTerm` | agent/single_point.go:63-70 | a run with premises kept up to the last step, where a resumed single point master is later admitted with a transaction its leader lacks |
| `Forgetting.ZeroTermMeansNew` | agent/leader.go:390-401 | in every run, without any premise, a node with stored term 0 has executed nothing and does not lead, unless it resumed single point mode or was admitted without its term being persisted |
| `Followers.UnpersistedTerm` | agent/server.go:813-825 | a run with premises kept up to the last step, where a joiner whose term was not persisted is admitted unchecked with a transaction its leader lacks |
| `Followers.CachedPosition` | agent/server.go:838-865 | a run with premises kept up to the last step, where a leader that resigned is compared at the position of its own election and admitted with a transaction of its own that its leader lacks |
| `Followers.LateRelayLog` | agent/server.go:494-499 | a run with premises kept up to the last step, where a node applies the relay log of its old master after its admission and gets ahead of its leader |
| `Followers.ForeignCount` | agent/server.go:857-865 | a run in which only a current winner's transaction breaks a premise, by publishing its count of a node that did not lead last, and the former leader is then admitted at a decisive position with a transaction its leader lacks |
| `Ties.TiedPositions` | agent/server.go:838-865 | a run over four terms with premises kept up to the last step, where an up-to-date position by a leader that wrote nothing ties, and a follower is admitted with a transaction its leader lacks |
| `KeyHistory.RunKey` | agent/leader.go:132-146 | in every run, without any premise, the history of the leader key never has two puts by different owners with no deletion between, and only grows |
| `KeyHistory.ActKeyStep` | agent/cleaner.go:50-64 | no action of any agent changes the owner of an existing key: it is rewritten by its owner, deleted by its owner, or left |
| `KeyHistory.WatchFromView` | agent/server.go:490-509 | replaying the key's history from the revision an agent read finds the leader it read up to the first deletion; with none so far, that leader holds the key |
| `Watch.WatchLeader` | agent/leader.go:152-200 | over any channels, a channel that merely closed is followed by the next from the same revision, an error or a cancellation ends the watch and is reported as such, no delivered deletion is passed over, and one returned is the first from the start of its channel |
| `Watch.WatchReign` | agent/server.go:500-504 | from the revision read, it returns a deletion if and only if some channel delivers the end of that reign before an error or a cancellation, and then it is that end |
| `Watch.DeliveredExactly` | agent/leader.go:161-165 | a channel opened at a revision delivers an event if and only if it delivers as many from that revision on |
| `Watch.WatchAdmitted` | agent/server.go:490-509 | in every run, an agent that watches from the view it was admitted with returns at the end of that leader's reign and at no other deletion, whenever a channel delivers it; until there is such an end, that leader holds the key |
| `Watch.LatestWatchExact` | agent/server.go:505-508 | without a revision the first deletion found is the end of that reign if and only if it had not happened when the watch was established |
| `Watch.MissesEnd` | agent/server.go:505-508 | a history in which the watch without a revision returns at the end of the next reign |
| `Handover.NoGapLeavingSinglePoint` | agent/single_point.go:110-136 | from the read-only step to the node's own resume, whatever others do, the key stays its own and lease-free and the database closed; the resume succeeds and only then has a lease |
| `Handover.RunLeaving` | agent/server.go:442-487 | the same for every state on the way, over any number of steps |
| `Handover.LeasedAfterRemoval` | agent/single_point.go:112-136 | once the mark of single point mode is removed, then after any steps short of the node's own resume, what follows a read is the leased resume and not single point mode |
| `Handover.AloneWhileMarked` | agent/server.go:452-456 | if the mark could not be removed, what follows a read is single point mode and not the leased resume |
| `Recovery.NeverStuck` | agent/server.go:419-577 | from every safe state an agent that has not exited gets back to the top of its loop, with a database that takes no writes, by its own steps alone and without being closed or restarted |
| `Recovery.RunKnows` | agent/server.go:605-617 | in every run a node that leads takes itself for the leader |
| `Recovery.FailedCampaign` | agent/server.go:540-556 | a campaign whose call fails, before or after its transaction, and whose delete goes through leaves the node without the key and nobody else's key touched; a failed resume changes nothing, nor does an answer of having lost |
| `Recovery.StepMarked` | agent/single_point.go:197-209 | a lease-free key marked as single point stays so over a step if and only if the step is not a removal of the mark by anybody, nor the owner's own delete or leased resume |
| `Recovery.RunMarked` | agent/single_point.go:197-209 | the same over any run |
| `Recovery.AnothersMark` | agent/single_point.go:112 | wherever a single point master serves and another node is at the top, a run, with careful operators, in which the one resigns, the other takes its place alone, and the one removes the mark of the other |
| `Recovery.LostAnswer` | agent/single_point.go:98-108 | a won transaction whose answer is lost is tried again: a resume wins it again, and a campaign goes to the top marked as the single point master |
| `Recovery.ReturnsAlone` | agent/server.go:443-457 | a marked node that was taken down comes back to serve as the single point master, under the same term and with its log |
| `Recovery.CrashExact` | docs/lease.md:140-152 | a writable database whose agent is gone goes on taking writes, and as far as it is concerned time may pass by the time to stop and no more |
| `Recovery.RunDown` | agent/cleaner.go:50-64 | in every run a stopped node does nothing and its database keeps its log until it is restarted |
| `Recovery.RestartForgets` | agent/server.go:152-222 | a restarted agent knows what a fresh one knows, and refuses requests that open the database |
| `Recovery.KeepsRenewing` | agent/leader.go:286-300 | whatever the leader loop is at, the keep-alive loop renews the lease for a whole lifetime, and again when the answer is lost, with the stamp unchanged |
| `Recovery.ClosedExactly` | agent/leader.go:312-346 | stamped at the reply to a transaction or a renewal, the agent is closed by a check if and only if TTL minus threshold have passed since in whole seconds, and is otherwise checked again then |
| `Election.IsLatestLog` | agent/campaign.go:134-196 | whatever order the map is visited in, a node is latest exactly if nobody beats it and single point exactly if everybody else is at an earlier term; unreadable own position gives neither |
| `Election.LatestExactly` | agent/campaign.go:134-196 | the latest nodes are exactly those with a readable log of the highest term whose position is at least that of every readable log of that term |
| `Election.LatestHoldsTheRest` | agent/campaign.go:134-196 | when positions are those of logs of one history by one count, the latest node admits every node of its term and holds the whole log of each whose position is past all but its last transaction |
| `Election.UploadReadsBack` | agent/campaign.go:134-160 | logs of schema version 1 and 2 are compared by the same position of the database, except that version 2 says 0 where version 1 cannot be read |
| `Election.SomeoneIsLatest` | agent/campaign.go:134-196 | with readable positions some node is latest |
| `Election.LatestAgree` | agent/campaign.go:134-196 | all latest nodes have the same term and position |
| `Election.SinglePointIsUnique` | agent/campaign.go:134-196 | a single point is latest, and then no other node is latest or single point |
| `Election.LatestExistsExactly` | agent/campaign.go:141-190 | with unreadable version 1 logs, somebody is latest if and only if a readable log has the highest term |
| `LeaseMonitor.LeaseExpireMonitorLoop` | agent/leader.go:321-346 | over any renewals and timer delays the process is closed only when its stamp is reached and within a second and the lateness after it; a stop can come in between only while the close is not overdue; the timer fires at most once for every stamp and once more to close |
| `LeaseMonitor.DownBeforeLeaseEnds` | docs/lease.md:146-150 | so the database is down before the lease of the last acknowledged renewal ends |
| `LeaseMonitor.StampedBy` | agent/leader.go:312-318 | the stamp in force at a time is the last one taken by then |
| `LeaderLoop.Server.LeaderLoop` | agent/server.go:410-580 | over any sequence of rounds, the database is read-only at every top of the loop if and only if no round that ran left it open: by a failed opening whose failed undo is ignored, or by a request by hand, which is accepted exactly while the server takes itself for the leader |
| `LeaderLoop.Server.Round` | agent/server.go:419-577 | a round and the requests by hand after it: it reaches the next top with a writable database if it leaves it open, and otherwise keeps a read-only one; term, position and leader flag end as the cluster's functions say; a refused node is closed |
| `LeaderLoop.Server.OwnRound` | agent/server.go:419-577 | the same of the round alone, which opens the database once and only if the node won or kept the leader key |
| `LeaderLoop.Server.ByHand` | agent/http.go:92-138 | requests by hand take effect exactly while the server takes itself for the leader; which of them open and which close the database, rollbacks included |
| `LeaderLoop.Server.PreWatch` | agent/server.go:813-899 | admits exactly the nodes the cluster's check accepts, with the term and position it gives, and refuses when a needed position cannot be read |
| `LeaderLoop.UnreadableRefused` | agent/server.go:838-848 | when the database cannot tell its position, a node is refused unless it is new, at the leader's term, or one behind with a cached position not beyond the leader's |
| `LeaderLoop.Server.UploadLogForElection` | agent/campaign.go:72-107 | leaves the position of a former master or of a slave cached, and on failure what the source leaves |
| `LeaderLoop.Server.ResumeLeader` | agent/server.go:458-487 | a failed opening is undone unless the undo fails too and the keep-alive loop has not yet made its own closing call |
| `LeaderLoop.Server.Campaign` | agent/server.go:514-577 | a failed opening never outlives a leased campaign; it can outlive one as single point |
| `LeaderLoop.Server.BecomeSinglePointMaster` | agent/single_point.go:85-136 | single point mode returns with the database read-only unless opening failed half way and the ignored undo failed |
| `LeaderLoop.Server.Reign` | agent/leader.go:267-310 | at the barrier the database is read-only or the process has exited, closing or not |
| `LeaderLoop.Server.Close` | agent/server.go:242-271 | the first call closes the database or exits, and only then drops the connection and cancels the context; every later call changes nothing |
| `LeaderLoop.Server.SetServiceReadonlyOrShutdown` | agent/server.go:582-588 | the process lives on only with a read-only database |
| `LeaderLoop.ServiceManager.SetReadOnlyManually` | agent/service_manager.go:127-157 | succeeds exactly when no schema change ran before or after and the call worked; a refusal after the first count leaves the database open if the way back had any effect, whatever it was before |
| `Refinement.CampaignRefines` | agent/server.go:514-577 | whatever others do to the store in between, a campaign round of the server object ends as the path of read, upload, grant, transaction and reply ends in the cluster |
| `Refinement.ResumeRefines` | agent/server.go:443-487 | the same for a leased resume |
| `Refinement.AloneRefines` | agent/single_point.go:28-53 | the same for a campaign as single point |
| `Refinement.ResumeAloneRefines` | agent/single_point.go:56-81 | the same for a resumed single point |
| `Refinement.FollowRefines` | agent/server.go:488-499 | the same for following, which is refused on both sides or on neither, also when the position cannot be read |
| `Refinement.ReignRefines` | agent/server.go:566-577 | from the won transaction to the end of the reign, opened or not, and whatever is asked by hand while it is resigned, the cluster's agent is back at the top with a read-only database and the same term, position and flag |
| `Refinement.ResignRefines` | agent/http.go:70-90 | resigning either kind of reign ends with a read-only database, the key given up if the delete goes through, and for single point mode the mark still to be removed |
| `Refinement.MayResign` | agent/http.go:70-89 | a leader can be asked to resign exactly while it serves, under a lease or alone |
| `Refinement.AloneEndRefines` | agent/single_point.go:106-136 | single point mode that is not opened, or has found company, can remove its mark and is then back at the top in the same way |
| `Refinement.HandRefines` | agent/http.go:92-138 | an accepted request by hand leaves the cluster's database as the endpoint leaves it: a granted read-only request closed, a read-write request or a rolled-back one open, and the store alone |
| `Refinement.SkipRefines` | agent/server.go:518-522 | an only-follow node that finds no leader is back at the top as it was |
| `Refinement.FailedRefines` | agent/server.go:540-552 | a leased round whose call fails, at any point, is back at the top with the server and the database as they were |
| `Refinement.NextExactly` | agent/server.go:441-540 | after a read exactly one of these can follow, and which: following, the leased resume, the resume of single point mode, preparing a campaign, or campaigning in a new cluster |
| `Refinement.ReadyExactly` | agent/server.go:533-540 | after preparing its campaign, also when its position could not be read, a node may campaign, under a lease or alone |
| `Shutdown.ReturnedReadOnly` | agent/leader.go:267-273 | in every interleaving of a campaigned or resumed reign the body of `Close` runs at most once; if no opening lands too late a returned keep-alive loop means read-only or exited, and exactly those interleavings leave no opening that could outlive that return |
| `Shutdown.LateOpenExact` | agent/server.go:470-485 | in any state of a reign a writable database can outlive the keep-alive loop's return without being opened again, if and only if that loop is not about to close it and either something has closed it before or the leader loop of a resumed reign can still stop the reign without closing it |
| `Shutdown.CloseOnce` | agent/server.go:242-247 | in every interleaving of any number of calls at most one gets past the test |
| `Shutdown.StrayOpeningClosed` | agent/leader.go:267-273 | while the server is not closing, a keep-alive loop on its way out closes whatever was opened before |
| `Shutdown.ClosedForGood` | agent/server.go:247-271 | in every interleaving, once the connection is dropped or the context cancelled nothing opens the database any more |
| `Shutdown.ClosedButWritable` | agent/leader.go:269-272 | the flag can be set while the database is writable |
| `Shutdown.OpenedTooLate` | agent/http.go:74-83 | from the start of a reign, through `Close` or through changeMaster, a run ends with the keep-alive loop returned and the database writable |
| `Shutdown.ResumeLeftOpen` | agent/server.go:478-484 | a resumed reign whose opening fails half way, whose failed undo is ignored, and whose keep-alive loop skips its call because the server is closing, ends with a writable database; nothing had closed it before |
| `SinglePoint.WaitUntilSlaveAppears` | agent/single_point.go:138-169 | it polls on, at exactly the times the sleeps give, until two polls in a row each count more than one agent, and returns then and only then; the first counts registrations made since waiting began, the second, a lifetime later, registrations made since the first, both up to the lateness of etcd |
| `SinglePoint.CompanyFound` | agent/single_point.go:143-168 | company from any time on is found by any two polls in a row that are answered after it |
| `SinglePoint.PollsApart` | agent/single_point.go:143-168 | polls are five seconds or a lifetime apart unless a confirming poll was not answered |
| `SinglePoint.PollIsFresh` | agent/registry.go:81-104 | a poll a whole lifetime later counts nobody on a registration older than that by the lateness of etcd |
| `SinglePoint.LatenessExact` | agent/single_point.go:140-141 | every such poll counts only registrations made since, if and only if etcd drops leases on time |
| `SinglePoint.StaysRegisteredExactly` | agent/node.go:150-181 | agents that re-register with at most a given lag are always registered if and only if the lag is within TTL minus the period, at least a second for a TTL of 2 s or more |
| `Switch.CheckConsistency` | moctl/switch.go:399-449 | the loop over the slaves ends at the first one absent or behind, as the specification says |
| `Switch.ConsistentExactly` | moctl/switch.go:399-449 | for replicas of the master the check succeeds if and only if every listed slave holds all of its log |
| `Switch.LevelExactly` | moctl/switch.go:399-449 | a slave is level if and only if its log is as long and holds as many of the master's own transactions |
| `Switch.VerdictExactly` | moctl/switch.go:399-449 | a turn is out of reach, lagging or level, by its first slave that does not hold the whole log, and level means that every slave does |
| `Switch.Drive` | moctl/switch.go:488-525 | the loop, clients writing whenever the master lets them and answers getting lost, does what the specification of a run says |
| `Switch.WaitsForSlaves` | moctl/switch.go:490-516 | on a closed master the tool makes no request as long as a slave lags |
| `Switch.SwitchesWhenLevel` | moctl/switch.go:490-515 | if the slaves lag up to some turn and are level at it, and changeMaster is not refused, that request is the only one, and every slave holds the master's log |
| `Switch.GoesOnWhenRefused` | moctl/switch.go:503-515 | if it is refused, the tool asks to reopen the master and goes on with the next turn |
| `Switch.StopsOutOfReach` | moctl/switch.go:491-496 | if somebody is out of reach after slaves that merely lagged, the one request is to reopen the master |
| `Switch.GivesUp` | moctl/switch.go:517-524 | if the slaves lag to the end, the one request is to reopen the master |
| `Switch.NeverLeftClosed` | moctl/switch.go:488-525 | a run after a successful setReadOnly ends with a successful changeMaster or a setReadWrite request, if and only if no changeMaster request it makes is left without an answer |
| `Switch.SwitchExact` | moctl/switch.go:493-515 | however clients time their writes, a switch loses none if and only if no slave is listed, or the master was closed at the start and no earlier turn finds the slaves level and reopens it |
| `Switch.LosesAfterReopening` | moctl/switch.go:504-515 | a run of two turns that loses a transaction |
| `EventFd.DeliversExactly` | supervise/supervise.c:228-238 | whatever was known before, a read leaves the latest process id if and only if at most one was written and fewer than 2^32 heartbeats, or none and so many heartbeats that they read as negative |
| `EventFd.RunDelivers` | cmd/mysql-agent-service-boot/main.go:48-50 | over any run of writes and reads with such batches every read leaves the latest process id |
| `EventFd.SumSplits` | agent/server.go:277-279 | the sum is the heartbeats plus the process ids shifted up, and how the shifted part compares with the latest id |
| `EventFd.Supervisor.DetectChildAlive` | supervise/supervise.c:216-256 | which of alive, timeout and error is reported, that interruptions lose no message, the exact time it takes, each wait cut off at half the timeout before plus 1 ms, and that this is at most 2 ms an interruption beyond twice the timeout |
| `EventFd.Supervisor.ReadPid` | supervise/supervise.c:228-238 | one read replaces the pending messages by what their sum delivers |
| `DirTree.List` | pkg/etcd/etcd.go:178-207 | walking the tree it returns finds a node exactly on the way to some listed key, and there the value of the last key listed at that path or none |
| `DirTree.Insert` | pkg/etcd/etcd.go:190-203 | one more key: all earlier nodes stay where they were, and the tree represents one key more |
| `DirTree.ParseToDirTree` | pkg/etcd/etcd.go:209-231 | the walk returns the node at the path, keeps every old node at its path, and adds only new, empty nodes on the way |
| `DirTree.WalkAgreesWithKeys` | pkg/etcd/etcd.go:178-231 | walking the split of a key reaches exactly its value, and a walk that reaches a value has walked a key with that value |
| `DirTree.WalkFindsPlanned` | pkg/etcd/etcd.go:209-231 | in the heap, walking reaches exactly the planned nodes and nothing else |
| `DirTree.KeyIsWalk` | pkg/etcd/etcd.go:178-231 | walking directories that hold no slash reaches a value if and only if the key made of the directory and these names joined by slashes is there with that value, and then every node on the way is there |
| `DirTree.OwnKeySkipped` | pkg/etcd/etcd.go:193-199 | the key of the listed directory itself is not in the tree |
| `Strings.SplitExactly` | pkg/etcd/etcd.go:210 | the parts of a string are the only ones that hold no separator and give the string when joined by it |
| `Binlog.GetBinlogList` | moctl/recovery.go:375-441 | a file name whose second part is no 64-bit number, signed or not, is an error; otherwise the list is the files from the first number to the last, without those of more than six characters |
| `Binlog.ListBetween` | moctl/recovery.go:375-441 | from one file to another of the same prefix the list is these two and all between them |
| `Binlog.NameSplits` | moctl/recovery.go:407-438 | a listed name splits at its dot into prefix and suffix, and its number reads back, also with a quote at the end |
| `Binlog.ParseIntExactly` | moctl/recovery.go:381-408 | a number written out reads back if and only if it fits 64 bits, also with a plus sign |
| `Binlog.ListReadsBack` | moctl/recovery.go:412-438 | a list of numbers within six digits has every number once, in order, each suffix reads back as its number, and the names sort as strings |
| `Binlog.CompleteExactly` | moctl/recovery.go:412-438 | the list is complete if and only if the first and the last number are written with at most six characters |
| `Binlog.NegativeDoesNotReadBack` | moctl/recovery.go:412-438 | a negative number that is filled up gives a suffix that is no number |
| `Binlog.OrderIsNumeric` | moctl/recovery.go:412-438 | digit strings of one length sort as their numbers do |

## Left out

- LeaderLoop.Server.Close: unregistering and deleting the leader key are in `Cluster`; a `Close` from another goroutine in the middle of a round is in `Shutdown`, not in the loop; the loop meets it at the end of a reign.
- LeaderLoop.Server.Round: the single point flag, which only the status page shows, and the deletion of the leader key after a failed campaign are not in the class; the latter is in `Cluster`.
- Shutdown.ReturnedReadOnly: closing the stop channel a second time, which panics.
- Careless.OpeningExact: nodes that hold the key without leading; some of them are harmless to open, and which is not decided.
- Switch.Drive: the agent's own state during the switch is reduced to whether the master takes writes.
- LeaseTightness.ConfigurationExact: TTLs within the delay and two seconds of the threshold, where the bound is not sharp.
- Binlog.GetBinlogList: a file name without a dot, on which the source panics, and a last number of 2^63 - 1, at which the 64-bit counter wraps and the loop does not end.
- EventFd.Supervisor.DetectChildAlive: reaping and restarting the agent, and the signals, are not modelled.
- DirTree.List: the root path prefix and the trailing slash of the listed directory are taken as given.
- Election.IsLatestLog: how node ids are cut out of etcd keys is not modelled.
- etcd itself: transactions are linearizable, leases end on time or later, watches deliver revisions in order.
- MySQL and PostgreSQL execution, SQL text, GTID string parsing, JSON and TOML: the model starts from intervals and records.
- Comparisons of schema version 1 in `preWatch`; in the election they are modelled.
- The reuse of one stop channel field across reigns.
- The pre-check of the switch tool, which looks at the first slave only.
- Metrics, logging, HTTP plumbing, configuration files, checkers and chaos jobs, Docker files.
