# Statime in Dafny

Statime is an implementation of the Precision Time Protocol (IEEE 1588-2019) in Rust. This project
models its hard core and proves properties of the model over every input, every run or every
reachable state. `dafny verify dfyconfig.toml` checks all of it.

| part | files |
|---|---|
| best master clock algorithm | `DatasetComparison`, `ForeignMasters`, `Bmca`, `Instance`, `InstanceRuns`, `InstanceGuarantees`, `SilentPorts`, `PtpInstance` |
| what it means in announce fields, receipts and elapsed time | `AnnounceOrder`, `Decisions`, `StoreHistory`, `Timeouts`, `AnnounceChain` |
| sync, delay and peer-delay measurement | `Measurement`, `MeasurementLaws`, `Provenance`, `MeasuringPort`, `TimeTransfer` |
| clock filter | `Matrix`, `Kalman`, `ClockFilter`, `FilterLaws`, `PathEstimates` |
| wire format | `Bytes`, `Tlv`, `MessageHeader`, `Messages`, `WireLayout`, `AnnounceSender`, `AnnounceRecords` |
| the daemon's hand-off of ports | `Handoff`, `ClockModes` |
| shared types | `Prelude`, `DataSets` |

Where the source updates something in place there is a class or a method with loops, proved equal to
a specification function; the properties are proved about those functions. Whole runs are sequences
of events: `Instance.Step` for the ports of an instance, `Measurement.Step` for the measurement side of
one port, `Handoff.Next` for the daemon's tasks, `ClockFilter.Call` for a filter. The laws that say what
an operation is for are stated over the fields of announces, data sets, messages and estimates, over
receipts and over elapsed time, without the specification function they are about. Clocks, random
durations, the answers of the clock hardware and of the channel statistics are parameters. Assertions
that only debug builds check are not part of the model. Times are integers in units of 2^-32 ns; the
filter computes over `real`.

The labels a stored time carries in `Measurement` (which arrival it came from) and the counters `filter`,
`stay` and `request` are bookkeeping for the statements; no branch reads them.

## What turned out not to hold

- The data set comparison is no order when announces with the same grandmaster disagree about it
  (`DatasetComparison.InconsistentDataCanCycle`). Two such announces lie on a circle of three exactly if
  the one with the better attributes loses on steps and topology
  (`DatasetComparison.CycleIffAttributesDisagree`). On consistent data that no port received from its own
  clock it is an order (`DatasetComparison.NoBetterTransitive`).
- A DelayResp carries the fraction of a nanosecond of its receipt time with the wrong sign (section 11.3.2
  of IEEE 1588-2019 subtracts it when building the response): the leg is exact only for whole
  nanoseconds (`TimeTransfer.DelayRespRecovers`).
- A port can end up listening with no announce receipt timer, so that silence no longer makes it Master:
  a peer-to-peer port that became Master by that timer, then met a second peer, and then recovered. Exactly
  that step does it (`SilentPorts.FallsSilentOnlyByRecovery`), and exactly the peer-to-peer ports that are
  not master-only and accept a master other than their own clock can get there
  (`SilentPorts.SilenceIffPeerFollower`). With slave-only set no port does.
- A record list whose last value is empty is written but not read back (`TlvSets.AcceptedIffReadable`).
  Received messages may hold empty records before their last, so forwarding one can make an announce that
  nobody reads (`AnnounceSender.ForwardedRecordsArrive`, `AnnounceSender.EmptyRecordIsUnreadable`).
- The documentation of the provider of forwarded records allows a record as large as the room offered; the
  sender's assertion does not: it fails exactly if an offer fills the room left by those before it
  (`AnnounceSender.AddForwarded`, `AnnounceSender.FullRoomBreaks`).
- Announce intervals of 2^18 seconds and more do not fit the 64 bits of the store and wrap
  (`InstanceRuns.IntervalIsKept`).
- With the largest precision hysteresis, 127, predictions that keep fitting never make the wander larger: the
  score saturates at 127 (`FilterLaws.VerdictsAddUp`).
- A disabled port that is Faulty becomes Passive at a decision that would otherwise allow Master; every other
  decision leaves a fault alone (`Decisions.RoleWhenBeaten`).
- Port numbers are 16 bits wide and wrap: identities are distinct up to 65536 ports
  (`InstanceRuns.NumbersAreDistinct`).

## Model

| member | source | states |
|---|---|---|
| `Matrix.CauchySchwarz` | statime/src/filters/matrix.rs:39-93 | for a symmetric positive semidefinite matrix, the square of a mixed entry is at most the product of the two variances, in every pair of directions |
| `Matrix.Congruence` | statime/src/filters/matrix.rs:81-93 | F P F^T measures a direction v as P measures F^T v, so a congruence keeps positivity |
| `Matrix.QuadSymmetrize` | statime/src/filters/matrix.rs:39-46 | symmetrizing changes no variance |
| `Kalman.NewInnerIsCovariance` | statime/src/filters/kalman.rs:251-261 | a fresh filter starts with a symmetric positive semidefinite covariance |
| `Kalman.NoiseIsNonNegative` | statime/src/filters/kalman.rs:263-288 | the process noise added while time passes is positive semidefinite for every non-negative interval and wander |
| `Kalman.ProgressKeepsCovariance` | statime/src/filters/kalman.rs:263-288 | progressing a filter keeps a covariance, also when the new time is refused |
| `Kalman.ProgressComposes` | statime/src/filters/kalman.rs:263-288 | progressing in two stages equals progressing at once: state, covariance and time |
| `Kalman.PosteriorVariance` | statime/src/filters/kalman.rs:312-328 | absorbing takes exactly the squared covariance with the measurement over the innovation from the variance in any direction |
| `Kalman.AbsorbKeepsCovariance` | statime/src/filters/kalman.rs:312-328 | absorption keeps a covariance and increases no variance, in particular no diagonal entry |
| `Kalman.AbsorbIsOptimal` | statime/src/filters/kalman.rs:312-328 | no other linear gain leaves less variance in any direction, and the stored covariance is the one the gain used really leaves |
| `Kalman.AbsorbMovesTowardsMeasurement` | statime/src/filters/kalman.rs:290-328 | the prediction error shrinks to exactly the share of the innovation that is measurement noise |
| `ClockFilter.InnovationIsPositive` | statime/src/filters/kalman.rs:312-328 | on a covariance and a positive variance, absorption divides by a positive number |
| `ClockFilter.ClampIsNearest` | statime/src/filters/kalman.rs:503-511 | the adjusted frequency is in bounds, unchanged exactly when the wanted one is in bounds, and otherwise nearest to it |
| `ClockFilter.SteeringIsAccounted` | statime/src/filters/kalman.rs:638-668 | a successful steer keeps clock frequency minus estimated offset, and makes the estimate the target exactly when the bound does not bite |
| `ClockFilter.SteerOpposesOffset` | statime/src/filters/kalman.rs:670-713 | a steer pulls against the estimated offset within the maximum; a step removes the offset and shifts both filters alike |
| `ClockFilter.ChangeFrequencyKeepsInv` | statime/src/filters/kalman.rs:638-668 | a change of frequency keeps covariances, bound and the order of the two filters |
| `ClockFilter.CatchingUpKeepsInv` | statime/src/filters/kalman.rs:544-562 | the one test on the running filter covers the wander filter: an accepted measurement moves neither backwards |
| `ClockFilter.WanderUpdatedStaysBehind` | statime/src/filters/kalman.rs:715-778 | re-basing the wander filter on the running one never puts it past the measurement |
| `ClockFilter.MeasuredKeepsInv` | statime/src/filters/kalman.rs:544-611 | every measurement, accepted or not, keeps the filter invariant |
| `ClockFilter.RunsKeepInv` | statime/src/filters/kalman.rs:528-676 | over every run of measurements, updates and replacements: both covariances stay positive semidefinite, the frequency stays bounded, the wander filter stays behind |
| `ClockFilter.KalmanFilter.constructor` | statime/src/filters/kalman.rs:528-542 | starts with no estimate, the configured wander and no frequency |
| `ClockFilter.KalmanFilter.Measure` | statime/src/filters/kalman.rs:544-611 | the updates in place are the specified measurement step and keep the invariant |
| `ClockFilter.KalmanFilter.AbsorbMeasurement` | statime/src/filters/kalman.rs:564-608 | sync, delay and peer delay are absorbed in that order, a far offset resetting the filter |
| `ClockFilter.KalmanFilter.Update` | statime/src/filters/kalman.rs:613-621 | a timer update steers back to a zero target |
| `ClockFilter.KalmanFilter.UpdateWander` | statime/src/filters/kalman.rs:756-778 | the wander filter catches up, is judged, and the wander is rescaled past the hysteresis |
| `ClockFilter.KalmanFilter.ScoreWander` | statime/src/filters/kalman.rs:715-754 | each verdict changes the saturating score and re-bases the wander filter as specified |
| `ClockFilter.KalmanFilter.EnsureFrequency` | statime/src/filters/kalman.rs:780-790 | the frequency starts at zero once, when the clock accepts it |
| `ClockFilter.KalmanFilter.SetFrequency` | statime/src/filters/kalman.rs:638-668 | both filters absorb the same steer, and only if the clock took it |
| `ClockFilter.KalmanFilter.SteerClock` | statime/src/filters/kalman.rs:690-713 | steers below the step threshold and steps the clock otherwise |
| `FilterLaws.ExactEstimateStays` | statime/src/filters/kalman.rs:290-310 | a filter that believes offset, frequency and delay (theta, f, d) goes on believing them after a sync of theta + d, a delay offset of theta - d and a peer delay of d, alone or together, whatever its covariance |
| `FilterLaws.SyncPulls` | statime/src/filters/kalman.rs:382-396 | any other sync offset within the step threshold pulls offset plus delay towards it, leaving exactly the share of the measurement noise, the variance given by the covariance's entries |
| `FilterLaws.DelayPulls` | statime/src/filters/kalman.rs:398-412 | any other delay offset pulls offset minus delay in the same way |
| `FilterLaws.PeerPulls` | statime/src/filters/kalman.rs:414-418 | any other peer delay pulls the delay in the same way, at any distance |
| `FilterLaws.PulledIsNearer` | statime/src/filters/kalman.rs:312-328 | pulled means nearer and never past the measurement, strictly exactly when the prediction was wrong and uncertain |
| `FilterLaws.FarOffsetRestarts` | statime/src/filters/kalman.rs:382-412 | an offset beyond the threshold restarts the estimate from it: zero frequency and delay, the stated variances, no correlation, the time kept |
| `FilterLaws.TimeDrifts` | statime/src/filters/kalman.rs:263-288 | time lets the offset drift by the frequency; every entry of the covariance after dt, in terms of the entries before, wander and delay wander |
| `FilterLaws.OldMeasurementsAreIgnored` | statime/src/filters/kalman.rs:544-551 | a measurement from before the filter's time changes nothing at all |
| `FilterLaws.SteersToTheDeadZone` | statime/src/filters/kalman.rs:690-699 | steering for the steer time takes the offset exactly to the edge of the dead zone, or stops short of it where the maximum bites; inside the zone nothing is done |
| `FilterLaws.SteersAfterDrift` | statime/src/filters/kalman.rs:330-339 | until the clock took a new frequency the offset drifts by the old one; then both filters' frequencies change by what the clock's did |
| `FilterLaws.StepsFromTheThreshold` | statime/src/filters/kalman.rs:670-713 | an offset of at least the threshold is stepped away in both filters and their times if the clock allows, a smaller one never; a refusal changes nothing |
| `FilterLaws.FrequencyStartsAtZero` | statime/src/filters/kalman.rs:780-790 | the clock's frequency is first set, to zero, by the first sync or delay offset that finds the clock willing |
| `FilterLaws.VerdictsAddUp` | statime/src/filters/kalman.rs:715-778 | unlikely verdicts in a row quarter the wander after exactly hysteresis plus one of them, likely ones multiply it by four, except with hysteresis 127 |
| `FilterLaws.ExpectedVerdictsCalm` | statime/src/filters/kalman.rs:741-746 | an unremarkable prediction brings the score one back towards zero and leaves the wander alone |
| `FilterLaws.OtherVerdictsLeaveTheCount` | statime/src/filters/kalman.rs:715-730 | without a verdict on the wander score and wander stay |
| `FilterLaws.VerdictsRebase` | statime/src/filters/kalman.rs:715-770 | every meaningful verdict restarts the second filter from the running one, and without one it only lets time pass |
| `PathEstimates.PeerMeasures` | statime/src/port/slave.rs:382-411 | on a path with any clock offset a peer exchange measures half the sum of the two ways |
| `PathEstimates.TrueEstimateStaysOnSync` | statime/src/filters/kalman.rs:564-577 | a filter that knows the clock offset and mean delay of a path is not moved by the raw offset a sync on it measures, when the configured asymmetry is the path's |
| `PathEstimates.TrueEstimateStaysOnDelay` | statime/src/filters/kalman.rs:580-593 | nor by the raw offset a delay exchange on it measures |
| `PathEstimates.PeerConfirms` | statime/src/filters/kalman.rs:596-608 | nor is it contradicted by a peer delay on it |
| `DatasetComparison.CompareIsAntisymmetric` | statime/src/bmc/dataset_comparison.rs:61-160 | swapping the arguments mirrors the verdict, for all data |
| `DatasetComparison.CompareIsLexicographic` | statime/src/bmc/dataset_comparison.rs:61-160 | on consistent data both figures are one lexicographic order on (grandmaster attributes, identity, steps, sender, receiver port), exactly unless a message one step apart came from its own receiver |
| `DatasetComparison.InconsistentDataCanCycle` | statime/src/bmc/dataset_comparison.rs:61-118 | three data sets, each better than the next in a circle, once equal grandmasters carry different attributes |
| `DatasetComparison.CycleIffAttributesDisagree` | statime/src/bmc/dataset_comparison.rs:61-118 | two data sets of one grandmaster are put on a circle by some third one if and only if the one with better attributes loses on steps and topology |
| `DatasetComparison.NoBetterTransitive` | statime/src/bmc/dataset_comparison.rs:61-160 | the comparison is transitive on consistent data not sent by the receiver, D0 included |
| `DatasetComparison.CompareBestTransitive` | statime/src/bmc/bmca.rs:273-293 | with age as the tie-break the comparison of messages is transitive on such data |
| `DatasetComparison.MaxByPicks` | statime/src/bmc/bmca.rs:63-69 | the fold returns one of its messages, strictly better than every later one |
| `DatasetComparison.MaxByIsBest` | statime/src/bmc/bmca.rs:63-69 | on comparable data no message at all is better than the one the fold returns |
| `AnnounceOrder.CompareByFields` | statime/src/bmc/dataset_comparison.rs:28-160 | which of two announces is better, for all announces: different grandmasters by priority 1, class, accuracy, variance, priority 2, identity; the same by steps, sender, receiving port, age; age alone when one step apart and the farther one was heard by its own sender |
| `AnnounceOrder.CompareByRank` | statime/src/bmc/dataset_comparison.rs:28-160 | on announces from elsewhere that agree about their grandmasters it is one lexicographic order over these ten fields |
| `AnnounceOrder.OwnLosesIff` | statime/src/bmc/bmca.rs:71-88 | D0 loses to an announce if and only if its grandmaster ranks before the own clock, or it claims the own clock as grandmaster at no distance and comes from a smaller clock |
| `AnnounceOrder.OwnByRank` | statime/src/bmc/dataset_comparison.rs:46-59 | D0 takes part in the same order with its own priorities, quality and identity, zero steps and port zero |
| `ForeignMasters.RetainDropsPrefix` | statime/src/bmc/foreign_master.rs:66-71 | purging an oldest-first list drops a prefix, exactly the messages past the cutoff |
| `ForeignMasters.AgedKeeps` | statime/src/bmc/foreign_master.rs:127-138 | ageing keeps the store invariant: at most 8 masters, distinct, 1 to 8 messages each, all from that master, steps below 255, ages ordered and below four intervals, sequence numbers in step |
| `ForeignMasters.RegisteredKeeps` | statime/src/bmc/foreign_master.rs:162-193 | registering keeps the store invariant, whether the message is refused, appended, evicts the oldest or opens a master |
| `ForeignMasters.RegisteredIsReceived` | statime/src/bmc/foreign_master.rs:73-93 | after registering, every list is still a subsequence of the announces received |
| `ForeignMasters.AgedIsReceived` | statime/src/bmc/foreign_master.rs:95-101 | ageing and purging leave subsequences of the announces received |
| `ForeignMasters.LeftKeeps` | statime/src/bmc/foreign_master.rs:140-160 | taking the newest message of every qualified master keeps the invariant |
| `ForeignMasters.PutBackRestores` | statime/src/bmc/foreign_master.rs:162-193 | putting a taken message back passes every check and restores its master exactly |
| `ForeignMasters.ForeignMasterList.constructor` | statime/src/bmc/foreign_master.rs:116-125 | starts empty |
| `ForeignMasters.ForeignMasterList.StepAge` | statime/src/bmc/foreign_master.rs:127-138 | the reverse index loop ages every master and removes exactly the emptied ones |
| `ForeignMasters.ForeignMasterList.StepMessages` | statime/src/bmc/foreign_master.rs:95-101 | every message ages by the step and the too old are purged |
| `ForeignMasters.ForeignMasterList.TakeQualified` | statime/src/bmc/foreign_master.rs:140-160 | the reverse index loop takes the newest message of exactly the qualified masters, last master first |
| `ForeignMasters.ForeignMasterList.Register` | statime/src/bmc/foreign_master.rs:162-193 | the store becomes the specified one, refusals included |
| `Bmca.BestIsTaken` | statime/src/bmc/bmca.rs:231-254 | Erbest is the newest message of some qualified master of the port |
| `Bmca.TakeBestConserves` | statime/src/bmc/bmca.rs:213-254 | choosing restores the winner exactly, takes one message from every other qualified master, and touches no unqualified one |
| `Bmca.BestBeatsEveryMaster` | statime/src/bmc/bmca.rs:231-254 | Erbest is at least as good as the newest message of every qualified master |
| `Bmca.BestCanReturn` | statime/src/bmc/bmca.rs:213-254 | the chosen message is young enough and no older than what its master kept |
| `Bmca.StoreRunKeeps` | statime/src/bmc/foreign_master.rs:66-244 | after any sequence of receipts, agings and choices: the store invariant holds and every list is a subsequence of the announces received |
| `StoreHistory.TimeMakesOlder` | statime/src/bmc/foreign_master.rs:95-138 | a step of time makes everything held of every master older by exactly that step and forgets exactly what has then reached four intervals |
| `StoreHistory.ReceiptAppends` | statime/src/bmc/foreign_master.rs:162-244 | an announce is appended, the oldest of eight making room, exactly if it is from another clock, below 255 steps, less than half a turn of sequence numbers after the last, or of a new master among fewer than eight |
| `StoreHistory.ChoiceTakes` | statime/src/bmc/foreign_master.rs:140-160 | a choice takes the last announce of exactly the masters heard twice, the winner's excepted |
| `StoreHistory.StoreIsHistory` | statime/src/bmc/foreign_master.rs:66-244 | after any receipts, steps of time and choices, what is held of each master is exactly the announces its history says, each as old as the sum of the steps since its receipt |
| `StoreHistory.HeldExactly` | statime/src/bmc/foreign_master.rs:66-101 | an announce is held if and only if it was taken in, neither made room for a ninth nor was taken, and the steps since its receipt sum to less than four intervals |
| `StoreHistory.KnownIffHeld` | statime/src/bmc/foreign_master.rs:127-136 | a master is known exactly while something it announced is held |
| `StoreHistory.ErbestIsLastWord` | statime/src/bmc/foreign_master.rs:140-160 | a port has an Erbest exactly while two announces of one master are held; it is the last of such a master, as old as the time since its receipt |
| `StoreHistory.SilenceEmptiesStore` | statime/src/bmc/foreign_master.rs:66-136 | after steps summing to four intervals without a receipt the store is empty and there is no Erbest |
| `Bmca.PortBmca.constructor` | statime/src/bmc/bmca.rs:41-54 | starts with an empty store |
| `Bmca.PortBmca.RegisterAnnounce` | statime/src/bmc/bmca.rs:191-211 | accepts exactly announces not from itself and from acceptable masters |
| `Bmca.PortBmca.StepAge` | statime/src/bmc/bmca.rs:56-58 | every remembered announce ages and none of an unacceptable master appears |
| `Bmca.PortBmca.TakeBest` | statime/src/bmc/bmca.rs:231-254 | returns Erbest and leaves the conserved store |
| `Bmca.PortBmca.Reregister` | statime/src/bmc/bmca.rs:213-229 | re-registration with its age is registration in the store |
| `InstanceRuns.IntervalIsKept` | statime/src/datastructures/common/time_interval.rs:64-69 | the cast to 64 bits keeps the announce interval if and only if it is below 2^47 ns |
| `InstanceRuns.NumbersAreDistinct` | statime/src/ptp_instance.rs:211-240 | port identities of an instance are distinct exactly up to 65536 ports, the counter being 16 bits wide |
| `InstanceRuns.DecidedFacts` | statime/src/port/bmca.rs:211-283 | only S1 leaves a port Slave, S1 makes every non-Faulty port Slave of the announced master, slave-only never leaves Master, timers stay armed |
| `InstanceRuns.EligibleBestsFrom` | statime/src/port/bmca.rs:128-146 | exactly the ports that are neither master-only nor Faulty contribute their Erbest to Ebest |
| `InstanceRuns.EbestPort` | statime/src/ptp_instance.rs:114-130 | Ebest came from exactly one port, an eligible one, found again by its identity |
| `InstanceRuns.SharedFollowsRemote` | statime/src/port/bmca.rs:148-209 | applying recommendations that follow one master leaves its announce in the data sets, whatever their order |
| `InstanceRuns.SharedFollowsOwn` | statime/src/port/bmca.rs:148-209 | applying recommendations that follow none leaves the own data in the data sets |
| `InstanceRuns.SlaveAfterRun` | statime/src/ptp_instance.rs:107-152 | after a run any Slave port is the one Ebest came from, not master-only, and follows the new parent |
| `InstanceRuns.RunKeepsInv` | statime/src/ptp_instance.rs:107-152 | a BMCA run keeps the instance invariant |
| `InstanceRuns.StepKeepsInv` | statime/src/port/bmca.rs:25-283 | every handler, timer, BMCA run and setting keeps the instance invariant |
| `InstanceRuns.RunsKeepInv` | statime/src/ptp_instance.rs:107-240 | in every state of every run: at most one Slave, never a master-only port, the Slave follows the parent, stores are sound, every port has the timers of its role armed, but for one that listens after a peer request, and a fault follows a request of a port that could follow a master |
| `InstanceGuarantees.EbestIsBest` | statime/src/bmc/bmca.rs:63-88 | the winner of D0 against Ebest is no worse than D0 and every eligible Erbest |
| `InstanceGuarantees.BmcaIsOptimal` | statime/src/ptp_instance.rs:107-152 | outside clock classes 1 to 127, a run that recommends anything makes a best clock of D0 and all eligible Erbests the parent, with exactly Ebest's port Slave if D0 loses and none otherwise |
| `InstanceGuarantees.ParentBeatsEveryMaster` | statime/src/ptp_instance.rs:107-152 | the new parent is also no worse than the newest announce of every qualified master of every eligible port |
| `Decisions.FollowsTheBest` | statime/src/ptp_instance.rs:107-152 | outside classes 1 to 127, in announce fields: if the last word of some eligible master heard twice ranks before the own clock, one before which none ranks is followed, by its port alone, and the data sets repeat it one step farther; otherwise nobody is Slave and the own clock is told, unless every port merely listens to nobody |
| `Decisions.NewInstanceTellsOwn` | statime/src/ptp_instance.rs:157-172 | a new instance tells itself as grandmaster and has no ports |
| `Decisions.RoleWhenBeaten` | statime/src/bmc/bmca.rs:144-186 | the role of every port when D0 loses: Ebest's port Slave; Passive exactly where Erbest has Ebest's grandmaster and the same steps and a larger sender or port, or one step more and a sender below the receiving clock; else Master, or Listening when slave-only, Passive when disabled, Faulty kept |
| `Decisions.RoleWhenUnbeaten` | statime/src/bmc/bmca.rs:149-153 | when D0 does not lose every port that decides may be Master |
| `Decisions.RoleInLowClasses` | statime/src/bmc/bmca.rs:131-142 | in classes 1 to 127 a port is Passive exactly if its own Erbest beats D0, and else may be Master |
| `Decisions.ErbestIsLeast` | statime/src/bmc/bmca.rs:231-254 | Erbest is the last word of a master of the port before which no other of the port ranks, age included |
| `Decisions.ErbestIsFirst` | statime/src/bmc/bmca.rs:63-69 | among masters that tie in everything the one heard of first wins |
| `Decisions.RunArmsTimers` | statime/src/port/bmca.rs:211-283 | when a port comes back from a run exactly the timers of its new role have been armed on top of the others |
| `InstanceGuarantees.LowClassFollowsNobody` | statime/src/bmc/bmca.rs:131-142 | in clock classes 1 to 127 no port is Slave after a run; the own clock becomes the parent if some port is told M1, and otherwise all data sets stay, an old remote parent included |
| `InstanceGuarantees.EbestPortBecomesSlave` | statime/src/bmc/bmca.rs:144-186 | if D0 loses, exactly the port with Ebest's identity is Slave and the parent is Ebest's sender |
| `InstanceGuarantees.NobodyBecomesSlave` | statime/src/bmc/bmca.rs:144-186 | if D0 does not lose, no port is Slave and the instance is its own parent |
| `InstanceGuarantees.SlaveOnlyIsHonoured` | statime/src/port/bmca.rs:243-275 | while slave-only stays set there is no Master from the end of the next BMCA run on, or at once if there was none |
| `InstanceGuarantees.SlaveOnlyFromTheStart` | statime/src/ptp_instance.rs:275-285 | with slave-only set from the start no reachable state has a Master |
| `InstanceGuarantees.DataSetsFollowTheSlave` | statime/src/port/bmca.rs:25-60 | between runs only an announce from the Slave's master changes parent, steps or time properties, and the parent stays the parent |
| `Timeouts.SilenceMakesMaster` | statime/src/port/mod.rs:396-413 | from the step at which the receipt timer fires with slave-only off, until the port hears an announce, the algorithm runs or a peer fault strikes, it is Master with announce and sync timers armed, in every run |
| `Timeouts.SilenceKeepsWaiting` | statime/src/port/mod.rs:382-395 | with slave-only on it is Listening with its receipt timer armed instead |
| `Timeouts.TimersRearm` | statime/src/port/mod.rs:363-379 | the other timers are armed again exactly where there is more to send |
| `Timeouts.PeerEventsAtPort` | statime/src/port/slave.rs:256-411 | a second peer makes any port Faulty, a request answered in full closes the exchange and ends a fault in Listening, and neither touches timers or store |
| `Timeouts.AnnounceAtPort` | statime/src/port/bmca.rs:82-103 | a heard announce resets the receipt timer and disables the port exactly if it comes from a smaller port of the own clock; one not heard leaves the port as it is |
| `Timeouts.AnnounceAtInstance` | statime/src/port/bmca.rs:30-75 | field by field, what an announce makes of the data sets: those of the parent on its Slave port and no others |
| `Timeouts.StoreFollowsRun` | statime/src/port/bmca.rs:82-126 | in every state of every run the store of a port is what the announces heard on it and the runs of the algorithm made it |
| `Timeouts.DeadMastersAreForgotten` | statime/src/port/bmca.rs:117-126 | once the algorithm's runs have told four intervals since anything was heard on a port, it knows no master and has no Erbest |
| `Timeouts.DisabledForAnInterval` | statime/src/port/bmca.rs:90-123 | a port that hears a smaller port of its own clock stays disabled for exactly one announce interval after the last time |
| `Timeouts.DisabledIsNotMadeMaster` | statime/src/port/bmca.rs:256-259 | and meanwhile no run of the algorithm makes it Master |
| `AnnounceChain.FollowerRepeats` | statime/src/datastructures/messages/mod.rs:291-331 | whoever follows an instance's announce has its data sets, with the sender as parent and one step more |
| `AnnounceChain.PassedOn` | statime/src/datastructures/messages/mod.rs:291-331 | a clock that follows an announce passes on its grandmaster and time properties, one step farther |
| `AnnounceChain.OriginalIsBetter` | statime/src/bmc/dataset_comparison.rs:61-160 | whoever hears an announce and the one a follower makes of it prefers the first, whatever ages, ports and clocks |
| `AnnounceChain.ChainCountsSteps` | statime/src/datastructures/messages/mod.rs:291-331 | along any chain of followers the grandmaster and its time stay and the steps count the clocks passed |
| `AnnounceChain.NeverFollowsItself` | statime/src/bmc/bmca.rs:71-88 | a clock that announces itself is never beaten by that announce come back through any chain of other clocks |
| `AnnounceChain.AnnounceIsReadBack` | statime/src/datastructures/messages/mod.rs:291-331 | the announce of the data sets is read back as sent exactly if accuracy and time source are ones the wire can tell apart |
| `SilentPorts.FallsSilentOnlyByRecovery` | statime/src/port/slave.rs:404-407 | a port comes to listen without receipt timer if and only if a completed peer measurement ends its fault while that timer is not armed |
| `SilentPorts.SilentIffLapsed` | statime/src/port/mod.rs:382-414 | in every state of every run the receipt timer of a running port is missing if and only if it fired with slave-only off and was not reset since; only a peer-to-peer port that could follow a master listens so |
| `SilentPorts.SlaveOnlyIsNeverSilent` | statime/src/port/mod.rs:382-394 | with slave-only set from the start every running port has its receipt timer, peer-to-peer or not |
| `SilentPorts.SilenceIffPeerFollower` | statime/src/port/slave.rs:404-407 | some run leaves a port of a configuration listening without receipt timer if and only if it is peer-to-peer, not master-only and accepts a master other than the own clock |
| `SilentPorts.PeerFollowerFallsSilent` | statime/src/port/slave.rs:256-407 | such a run: two announces, S1, a peer request, the receipt timer, a second peer, a completed measurement |
| `SilentPorts.FaultsAgree` | statime/src/port/slave.rs:256-377 | the measurement handlers fault only after a request was sent, as the instance's step system has it |
| `SilentPorts.RecoveriesAgree` | statime/src/port/slave.rs:379-411 | they recover only when the waiting request is answered in full, into Listening |
| `SilentPorts.PhasesAgree` | statime/src/port/slave.rs:468-514 | the phase of the peer exchange changes only by a request and by its full answer |
| `SilentPorts.FaultAndRecoveryHappen` | statime/src/port/slave.rs:256-411 | from any fresh request two responders lead to the fault, and the first one's answers and our timestamp out of it |
| `PtpInstance.PtpPort.constructor` | statime/src/port/mod.rs:656-705 | a new port listens, in BMCA, with its receipt timer pending |
| `PtpInstance.PtpPort.HandleReceiptTimer` | statime/src/port/mod.rs:382-414 | becomes Master, or Listening when slave-only, and arms the timers of that role |
| `PtpInstance.PtpPort.HandleAnnounceTimer` | statime/src/port/mod.rs:364-370 | rearms exactly on Master ports |
| `PtpInstance.PtpPort.HandleSyncTimer` | statime/src/port/mod.rs:372-375 | rearms exactly on Master ports |
| `PtpInstance.PtpPort.HandleDelayTimer` | statime/src/port/mod.rs:377-380 | rearms exactly where a request is sent, and opens a peer exchange on a peer-to-peer port |
| `PtpInstance.PtpPort.HandlePeerFault` | statime/src/port/slave.rs:266-289 | the port becomes Faulty |
| `PtpInstance.PtpPort.HandlePeerMeasured` | statime/src/port/slave.rs:382-411 | the exchange is closed and a fault ends in Listening |
| `PtpInstance.PtpPort.StartBmca` | statime/src/port/mod.rs:425-452 | nothing is pending and no best is chosen |
| `PtpInstance.PtpPort.EndBmca` | statime/src/port/mod.rs:536-568 | the pending actions are carried out in order |
| `PtpInstance.PtpPort.Handle` | statime/src/port/mod.rs:336-414 | every event of a port has exactly the effect of the step system |
| `PtpInstance.PtpPort.HandleAnnounce` | statime/src/port/bmca.rs:25-108 | updates the data sets only from the parent of a Slave port, registers, disables a port that hears a sibling, and rearms the receipt timer |
| `PtpInstance.PtpPort.CalculateBest` | statime/src/port/bmca.rs:111-115 | the port keeps its Erbest for the run and its store is conserved |
| `PtpInstance.PtpPort.SetRecommendedState` | statime/src/port/bmca.rs:148-209 | data sets and role change as the recommendation says |
| `PtpInstance.PtpPort.SetRecommendedRole` | statime/src/port/bmca.rs:211-283 | role and pending actions per recommendation, slave-only and multiport disable included |
| `PtpInstance.PtpPort.StepAnnounceAge` | statime/src/port/bmca.rs:117-126 | ages the store and the multiport disable, which lapses |
| `PtpInstance.PtpInstance.constructor` | statime/src/ptp_instance.rs:159-173 | no ports, own parent |
| `PtpInstance.PtpInstance.AddPort` | statime/src/ptp_instance.rs:211-240 | the next number, one more port |
| `PtpInstance.PtpInstance.SetSlaveOnly` | statime/src/ptp_instance.rs:281-285 | sets the flag and nothing else |
| `PtpInstance.PtpInstance.SetQuality` | statime/src/ptp_instance.rs:269-273 | sets the quality and nothing else |
| `PtpInstance.PtpInstance.RunBmca` | statime/src/ptp_instance.rs:107-152 | the loops over mutable ports and shared data sets compute the specified BMCA run |
| `PtpInstance.PtpInstance.Dispatch` | statime/src/ptp_instance.rs:107-285 | any enabled event turns objects that represent a state into objects that represent the next state of the step system |
| `PtpInstance.PtpInstance.Run` | statime/src/ptp_instance.rs:107-285 | after any run of events over the objects of a new instance they represent the run's last state, and over at most 65536 ports at most one of them is Slave, not a master-only one, following the parent, with the rest of the invariant |
| `PtpInstance.PtpInstance.CalculateBests` | statime/src/ptp_instance.rs:114-117 | every port's Erbest first |
| `PtpInstance.PtpInstance.FindEbest` | statime/src/ptp_instance.rs:118-125 | the fold over the ports is Ebest |
| `PtpInstance.PtpInstance.Decide` | statime/src/ptp_instance.rs:127-146 | each port in turn gets its recommendation and updates the shared data sets |
| `PtpInstance.PtpInstance.StepAges` | statime/src/ptp_instance.rs:147-152 | every port ages |
| `Provenance.HandleIsFeed` | statime/src/port/slave.rs:35-377 | every handler is one write to an exchange slot followed by computing all that it completed |
| `Provenance.SyncExtracted` | statime/src/port/slave.rs:409-429 | a complete sync slot gives an offset of one Sync and its FollowUp (or a one-step Sync) of one sequence number from the current master |
| `Provenance.DelayExtracted` | statime/src/port/slave.rs:430-446 | a complete delay slot gives an offset of our timestamp and the master's answer to the latest request |
| `Provenance.PeerExtracted` | statime/src/port/slave.rs:382-411 | a complete peer slot gives a delay from one responder's answers to the latest request |
| `Provenance.StepKeepsInv` | statime/src/port/slave.rs:21-456 | every event keeps the provenance invariant |
| `Provenance.RunsAreAccountedFor` | statime/src/port/slave.rs:21-568 | over every run: no slot is left complete; every sample pairs messages of one exchange with the current master or one responder and the latest request; no arrival serves two samples; all raw offsets of one filter come from one stay in Slave |
| `Provenance.DelaysCombineOneStay` | statime/src/port/slave.rs:415-446 | over every run: a measured delay is half the difference of the latest sync offset of the same stay in Slave and its delay offset, and absent before the first sync of the stay |
| `MeasurementLaws.SyncIsIgnoredIff` | statime/src/port/slave.rs:96-161 | a Sync leaves no trace if and only if it is not from the master, was seen before, or is one-step and meets an exchange of its number |
| `MeasurementLaws.FollowUpIsIgnoredIff` | statime/src/port/slave.rs:163-208 | a FollowUp if and only if it is not from the master or not the first of its number |
| `MeasurementLaws.DelayIsIgnoredIff` | statime/src/port/slave.rs:35-65 | our timestamp and the master's answer if and only if no request of that number waits for them |
| `MeasurementLaws.OneStepSyncMeasures` | statime/src/port/slave.rs:96-161 | a one-step Sync that is not ignored is an offset at once |
| `MeasurementLaws.OneStepPeerMeasures` | statime/src/port/slave.rs:256-318 | a one-step peer answer and our timestamp, in either order, are the delay of half the time between them |
| `MeasurementLaws.StrayAnswersAreIgnored` | statime/src/port/slave.rs:256-377 | peer answers to others, or to an older request, leave no trace |
| `MeasurementLaws.FaultyIff` | statime/src/port/slave.rs:256-411 | after an event a port is Faulty if and only if a second peer answered its request, or it was and the event neither completes an exchange nor gives it another role |
| `MeasurementLaws.FilterIsReplacedIff` | statime/src/port/mod.rs:571-587 | the filter is replaced, once, exactly when the port leaves a master or a fault, or meets a fault |
| `MeasurementLaws.BecomingSlave` | statime/src/port/bmca.rs:219-233 | a new stay in Slave starts with nothing measured, the same master keeps the old stay, and a Faulty port starts none |
| `MeasurementLaws.MeanDelayIff` | statime/src/port/slave.rs:21-33 | the mean delay is the last one the filter answered |
| `MeasurementLaws.HalfRoundsToZero` | statime/src/port/slave.rs:389-446 | a mean is half the sum, rounded towards zero |
| `MeasurementLaws.RequestsCount` | statime/src/port/slave.rs:460-568 | request numbers count up and wrap, each mechanism its own |
| `MeasuringPort.SyncOrder` | statime/src/port/slave.rs:96-208 | a two-step Sync and its FollowUp in either order give the same sample and the same port |
| `MeasuringPort.DelayOrder` | statime/src/port/slave.rs:35-65 | our request timestamp and the answer in either order give the same sample and the same port |
| `MeasuringPort.PeerOrder` | statime/src/port/slave.rs:256-377 | the three arrivals of a peer exchange in all six orders give one and the same sample, on the third, and end any fault |
| `MeasuringPort.Handlers.constructor` | statime/src/port/mod.rs:656-705 | a new port has empty slots |
| `MeasuringPort.Handlers.SetForcedState` | statime/src/port/mod.rs:571-587 | the filter is replaced exactly on leaving Slave or Faulty or entering Faulty |
| `MeasuringPort.Handlers.ExtractMeasurement` | statime/src/port/slave.rs:379-456 | one complete exchange is consumed, peer before sync before delay |
| `MeasuringPort.Handlers.HandleTimeMeasurement` | statime/src/port/slave.rs:21-33 | the mean delay changes only when a sample was fed and the filter answered one |
| `MeasuringPort.Handlers.HandleSync` | statime/src/port/slave.rs:96-161 | one-step and two-step, duplicates ignored |
| `MeasuringPort.Handlers.HandleFollowUp` | statime/src/port/slave.rs:163-208 | also before its Sync |
| `MeasuringPort.Handlers.HandleDelayTimestamp` | statime/src/port/slave.rs:35-65 | only for the pending request, once |
| `MeasuringPort.Handlers.HandleDelayResp` | statime/src/port/slave.rs:210-254 | only from the master, to us, for the pending request, once |
| `MeasuringPort.Handlers.HandlePeerTimestamp` | statime/src/port/slave.rs:67-94 | only for the pending request, once |
| `MeasuringPort.Handlers.HandlePeerResp` | statime/src/port/slave.rs:256-318 | a second responder makes the port Faulty |
| `MeasuringPort.Handlers.HandlePeerRespFollowUp` | statime/src/port/slave.rs:320-377 | a second responder makes the port Faulty |
| `MeasuringPort.Handlers.SendDelayRequest` | statime/src/port/slave.rs:460-568 | a new request replaces the slot and takes the next number, wrapping |
| `MeasuringPort.Handlers.Dispatch` | statime/src/port/mod.rs:481-537 | each event reaches its handler |
| `MeasuringPort.Handlers.Run` | statime/src/port/slave.rs:21-568 | the samples of a whole run of the handlers are those the run theorem accounts for |
| `TimeTransfer.WireKeepsNanos` | statime/src/datastructures/common/timestamp.rs:34-41 | a wire timestamp carries the whole nanoseconds of a time, modulo 2^48 seconds |
| `TimeTransfer.FollowUpRecovers` | statime/src/datastructures/messages/mod.rs:270-289 | the slave recovers the send time rounded down to 2^-16 ns, exactly when its seconds fit 48 bits |
| `TimeTransfer.DelayRespRecovers` | statime/src/datastructures/messages/mod.rs:353-383 | the receipt time is recovered exactly for whole nanoseconds only; otherwise short by its fraction, lost once and subtracted once |
| `TimeTransfer.FollowUpCrossesTheWire` | statime/src/port/slave.rs:175-176 | the FollowUp as bytes is delivered to the handler as the same times |
| `TimeTransfer.DelayRespCrossesTheWire` | statime/src/port/slave.rs:239-242 | the DelayResp as bytes is delivered to the handler as the same times |
| `TimeTransfer.SyncMeasures` | statime/src/port/slave.rs:409-429 | a sync measures offset plus way down minus asymmetry, off by less than 2^-16 ns, in either arrival order |
| `TimeTransfer.DelayMeasures` | statime/src/port/slave.rs:430-446 | a delay exchange measures offset minus way up, and half the difference as mean delay |
| `TimeTransfer.OffsetIsRecovered` | statime/src/port/slave.rs:379-456 | after a sync, a delay exchange and another sync, the reported offset is the clock offset plus half the difference of the ways minus the asymmetry, up to the stated rounding |
| `TlvSets.FromPrimitive` | statime/src/datastructures/common/tlv.rs:213-274 | no type code is lost: writing the type read gives the code back |
| `TlvSets.DeserializeSet` | statime/src/datastructures/common/tlv.rs:60-88 | the loop accepts exactly the accepted byte strings, whole, and reports the same error otherwise |
| `TlvSets.TlvSetIterator.constructor` | statime/src/datastructures/common/tlv.rs:95-97 | iterates over the whole set |
| `TlvSets.TlvSetIterator.Next` | statime/src/datastructures/common/tlv.rs:114-127 | on accepted bytes a record is always there and the rest is accepted again |
| `TlvSets.Collect` | statime/src/datastructures/common/tlv.rs:111-127 | iteration terminates, yields the records, and writing them again gives the bytes |
| `TlvSets.ItemsAreTheBytes` | statime/src/datastructures/common/tlv.rs:60-127 | accepted bytes are exactly the bytes of the records read, even lengths, a last value that is not empty |
| `TlvSets.AcceptedIffReadable` | statime/src/datastructures/common/tlv.rs:60-88 | a list of records is accepted if and only if all values have even length and the last is not empty |
| `TlvSets.ReadableListsRoundTrip` | statime/src/datastructures/common/tlv.rs:145-171 | every such list is read back as the same list |
| `TlvSets.TlvSetBuilder.constructor` | statime/src/datastructures/common/tlv.rs:12-14 | starts empty |
| `TlvSets.TlvSetBuilder.Add` | statime/src/datastructures/common/tlv.rs:16-20 | the buffer holds the bytes of the records added, in order |
| `TlvSets.TlvSetBuilder.Build` | statime/src/datastructures/common/tlv.rs:22-26 | yields exactly those bytes |
| `TlvSets.SerializeTlv` | statime/src/datastructures/common/tlv.rs:145-151 | type, length and value at the given place |
| `MessageHeader.HeaderRoundTrip` | statime/src/datastructures/messages/header.rs:69-137 | every header field, type and length come back from the 34 bytes, whatever follows |
| `MessageHeader.SerializeHeader` | statime/src/datastructures/messages/header.rs:69-102 | the writes in place are the specified 34 bytes and touch nothing after them |
| `WireLayout.HeaderLayout` | statime/src/datastructures/messages/header.rs:69-102 | every header field at its bytes, every flag at its bit, numbers most significant byte first (section 13.3 of IEEE 1588-2019) |
| `Messages.ReadTimeSource` | statime/src/datastructures/common/time_source.rs:49-65 | no time source code is lost |
| `Messages.ParsedFits` | statime/src/datastructures/messages/mod.rs:481-510 | an accepted message has the size its header says, at most the input, and only values that survive the wire |
| `Messages.AnnounceRoundTrip` | statime/src/datastructures/messages/announce.rs:26-63 | an announce body is read back equal, whatever its skipped byte held |
| `Messages.BodyRoundTrip` | statime/src/datastructures/messages/mod.rs:169-223 | each of the ten bodies is read back equal over any previous buffer content |
| `Messages.FittingRoundTrips` | statime/src/datastructures/messages/mod.rs:452-510 | a fitting message survives any buffer and any padding |
| `Messages.RoundTripsIffFits` | statime/src/datastructures/messages/mod.rs:452-510 | a message survives if and only if it fits: size below 2^16, canonical enumerations, its own header in an announce, accepted records |
| `Messages.ReserializedIsSame` | statime/src/datastructures/messages/mod.rs:452-510 | whatever was received can be sent on and is received as the same message |
| `Messages.SerializeAnnounce` | statime/src/datastructures/messages/announce.rs:26-44 | the writes in place are the specified bytes, the skipped byte keeping its content |
| `Messages.SerializeBody` | statime/src/datastructures/messages/mod.rs:169-184 | the body of every message type in place, nothing outside it |
| `Messages.Serialize` | statime/src/datastructures/messages/mod.rs:459-476 | header, body and records in place, nothing outside them |
| `Messages.Resend` | statime/src/datastructures/messages/mod.rs:459-510 | deserialize then serialize into any buffer of the message's length: same errors, or a buffer that deserializes to the same message |
| `WireLayout.AnnounceLayout` | statime/src/datastructures/messages/announce.rs:26-44 | every announce field at its bytes (section 13.5 of IEEE 1588-2019) |
| `WireLayout.TimeLayout` | statime/src/datastructures/messages/mod.rs:169-184 | a time and a port identity at their bytes, as in the other bodies |
| `WireLayout.ManagementLayout` | statime/src/datastructures/messages/management.rs:14-26 | the fields of a management body at their bytes |
| `WireLayout.MessageLayout` | statime/src/datastructures/messages/mod.rs:452-476 | type, total length, records behind the body, and an announce's fields, at their bytes of the whole message |
| `WireLayout.ReceivedIff` | statime/src/datastructures/messages/mod.rs:481-510 | bytes are a message if and only if the header is there, the type is one of the ten, the length covers header and body and is no more than there is, and the records are accepted; an unknown type is the only conversion error |
| `WireLayout.RecordLayout` | statime/src/datastructures/common/tlv.rs:145-151 | a record is type, length of the value, value |
| `WireLayout.RecordTypeCodes` | statime/src/datastructures/common/tlv.rs:243-274 | every type code and its meaning, old, experimental and reserved ranges included |
| `WireLayout.AccuraciesKept` | statime/src/datastructures/common/clock_accuracy.rs:108-141 | exactly the named and the profile accuracies are kept, all others read as reserved |
| `AnnounceSender.AddOwnTrace` | statime/src/port/master.rs:113-136 | the own path trace goes in exactly if enabled, short enough and smaller than the margin |
| `AnnounceSender.TakeOffer` | statime/src/port/master.rs:144-160 | only the parent's records, and no path trace when it is our own, and the margin shrinks by what was added |
| `AnnounceSender.AddForwarded` | statime/src/port/master.rs:144-160 | the margin loop forwards the offers up to the first that is not smaller than its room, filtered; the assertion fails if and only if some offer fills the room left by those before it |
| `AnnounceSender.FullRoomBreaks` | statime/src/port/master.rs:144-145 | a record of 960 bytes offered to a plain announce is such an offer |
| `AnnounceSender.ChooseRecords` | statime/src/port/master.rs:95-162 | the records are the own trace and what is forwarded, and with them the announce stays below the packet limit; none exactly where the assertion fails |
| `AnnounceSender.AnnounceArrives` | statime/src/port/master.rs:95-189 | whatever is offered, the announce is received if and only if its own data survive the wire, all records have even length and the last is not empty |
| `AnnounceSender.ForwardedRecordsArrive` | statime/src/port/master.rs:144-189 | when all offers came out of received messages, it is received with exactly the chosen records unless the last one is empty, and not otherwise |
| `AnnounceSender.EmptyRecordIsUnreadable` | statime/src/port/master.rs:144-189 | an empty record forwarded alone is sent in an announce that cannot be read |
| `AnnounceSender.SendAnnounce` | statime/src/port/master.rs:95-189 | choosing and writing into the packet buffer: nothing is sent exactly where the assertion fails, and the bytes sent can be read exactly if the records allow it |
| `AnnounceRecords.PathOnTheWire` | statime/src/port/master.rs:118-130 | the own path trace has type 8 and holds the clocks of the path in order and the own clock last, eight bytes each |
| `AnnounceRecords.OwnTraceIff` | statime/src/port/master.rs:118-138 | it goes in exactly if path trace is on, fewer than 128 clocks are on the path and it is strictly smaller than the margin |
| `AnnounceRecords.ForwardedInOrder` | statime/src/port/master.rs:144-161 | what is forwarded is the offers at the listed positions, in the order offered |
| `AnnounceRecords.PositionsAre` | statime/src/port/master.rs:149-157 | those positions are exactly the parent's offers that are not path traces while we send our own |
| `Handoff.StepKeepsInv` | statime-linux/src/main.rs:477-670 | every step of main or of a port task keeps the hand-off invariant |
| `Handoff.RunsKeepInv` | statime-linux/src/main.rs:445-670 | every state of every interleaving satisfies it |
| `Handoff.EachPortInOnePlace` | statime-linux/src/main.rs:477-670 | each port is in exactly one place (main, its task, one channel), no channel holds two, nothing else is handed around |
| `Handoff.BmcaStopsTheWorld` | statime-linux/src/main.rs:500-512 | BMCA runs only with all ports in main, in slot order, while no task can do anything |
| `Handoff.EveryInterleavingIsSafe` | statime-linux/src/main.rs:445-670 | placement, BMCA and progress in every state of every interleaving: one place each, BMCA only with all ports in order and every task still, and always a next step |
| `Handoff.CollectedOnce` | statime-linux/src/main.rs:493-498 | no port is collected twice in a round |
| `Handoff.NoDeadlock` | statime-linux/src/main.rs:477-540 | some step is always possible, and in a round one that brings it on |
| `Handoff.RoundsEnd` | statime-linux/src/main.rs:477-670 | between ticks the number of hand-off steps plus the remaining rank is constant: every round ends |
| `Handoff.RoundLength` | statime-linux/src/main.rs:477-670 | a round that starts with all n ports running takes 5n + 3 hand-off steps |
| `Handoff.RankZero` | statime-linux/src/main.rs:477-670 | when the rank is used up main waits and every port runs |
| `ClockModes.Publish` | statime-linux/src/main.rs:525-534 | a clock is published as driving the system clock exactly if a steering port uses it |
| `ClockModes.DrivesIffSlave` | statime-linux/src/main.rs:523-530 | after a run a clock drives the system clock if and only if a Slave port uses it |
| `ClockModes.AtMostOneDrives` | statime-linux/src/main.rs:525-534 | in every state of every run of an instance at most one clock is published so |

## Left out

- Sockets, tokio, hardware clocks, configuration, logging, metrics, the observer, the stm32 port: input and output and foreign code.
- Floating point rounding, the accuracy of chi_1 and of the square root, filter convergence: the filter is modelled over `real`, and verdicts and uncertainties are parameters.
- MeasurementErrorEstimator: its variance is a parameter, taken to be positive.
- OverlayClock and the basic filter: only easy members.
- PathTraceDS contents between runs: an announce that loops back is an event flag.
- AnnounceChain: the version, domain and sequence number of the announce header are given; clocks on a chain follow the announce as it was sent.
- Domain, SDO and version filtering of incoming packets, and the dispatch of message types: easy.
- The announce store assumes an announce interval of at least 2^-16 ns and below 2^47 ns, so that its stored interval is positive; see IntervalIsKept.
- InstanceGuarantees.BmcaIsOptimal: assumes that announces with equal grandmaster identity carry equal attributes, without which no best need exist.
- InstanceGuarantees.ParentBeatsEveryMaster: the same, for all announces it compares.
- InstanceRuns.RunsKeepInv: instances of at most 65536 ports, beyond which identities repeat; which listening ports can lack their receipt timer is in SilentPorts.
- ClockFilter.MeasuredKeepsInv: assumes a positive measurement variance, non-negative wander and delay wander, and a positive steer time.
- TimeTransfer.OffsetIsRecovered: clock offset and one-way delays are constant during the exchange, and the filter reports the measured delay back as mean delay.
- Times do not overflow 128 bits and do not go below zero; corrections of a DelayResp may wrap, and DelayRespRecovers asks that they do not.
- Sequence numbers of Sync and Announce messages on the master's side, and serialization failures there: easy.
- The filter-update timer is an event without a timer flag.
- TlvSets.TlvSetBuilder.Add: the caller must leave room, as the source's slicing demands; a record of 65536 bytes or more would wrap its length field.
- Handoff: a task's handling of one event is one step, and closed channels, which would stop the daemon, do not occur.
