# Verified model of the GPU-initiated NVMe-oF path

This project models, in Dafny, what the hard parts of the repository do and proves that they do it.

* **The queue protocol** (`Protocol`, `Invariant`, `SubmitterSteps`, `ConsumerSteps`, `NicSteps`, `Runs`, `Safety`,
  `Progress`, `Audit`, `Tightness`, `Overflow`). QD submitter blocks, one consumer and a NIC with its target share a
  send queue, a completion queue, a receive queue, doorbell records and a tag table. The model is a transition system
  with one step for each store another party can see; steps interleave freely. Counters are unbounded; 16- and 24-bit
  doorbell records, `wqe_counter`, phase and ring slots are views of them. An inductive invariant carries every safety
  theorem, a rank the progress theorems: bounded work, no stuck state, and a completing extension of every run.
  `SendQueue`, `RecvQueue` and `CompletionQueue` hold the three rings on their own.
* **The consumer in place** (`Consumer`, `Poller`). A class with the rings, records and counters as the code has them,
  proved equal, method by method, to the specification; and the theorem that it does not matter which of the three
  polling modes does the work.
* **The host's plan and audit** (`HostPlan`, `Audit`, `HostAudit`): QD clamps, job slices, the results counted, the
  check of the final doorbell records and when it raises a false alarm.
* **The key-value target** (`KvSpec`, `KvTable`, `KvIov`, `KvCommands`, `KvServer`, `KvLaws`). Entries, chains,
  buffers and free lists are heap objects. Each method is one section of the code that runs under the table lock,
  under the pool lock, or on a buffer only its request knows. `KvServer` lets the sections of any number of requests
  interleave in any order and proves that the table is what the commands, in the order of their table-lock sections,
  make of a plain map. `KvLaws` says what every client is told from the history of commands alone.
* **List and its client** (`KvList`, `KvClient`), **the wire formats** (`Bytes`, `Wire`), the way of a value from
  capsule to capsule (`KvPath`) and **the check pattern** (`BlkPattern`).

`Arith` holds arithmetic of counters and their views. `dafny verify dfyconfig.toml` checks everything.

## Hypotheses

About the NIC and the target (actions `Fetch`, `Send`, `Retire`, `SendCqe`, `Answer` of `Protocol`):

* WQEs are fetched in counter order, below the SQ doorbell record, and sent in that order.
* Every command is answered at most once, with its own cid, after the NIC is finished with its SQ slot.
* Recvs are consumed first in, first out; `wqe_counter` is their count modulo 2^16.
* A SEND CQE appears only for a signalled WQE, and once.
* A CQE is written only if the CQ doorbell record leaves room (`src/gpu_io_kernel.cpp:521` takes the record to be the
  NIC's overflow test).
* Only where a statement asks for `ordered`: a command's SEND CQE precedes its response CQE. The repository does not
  promise this order (`tst/pit7/pit7_io_kernel.cpp:42-43`). `Overflow.OverflowsUnordered` shows that the bound on the CQ
  does not hold without it, `Overflow.RoomUnordered` when it is not needed.

About takeover (`Config.Valid`, `Init`): rings are powers of two, the SQ is idle, QD entries fit the SQ
(`HostPlan.DevxLaunchable` derives it where the program makes the queues), the descriptors of the posted window are
pairwise distinct, and CQ entries the consumer must not take yet are blank or carry the other owner bit. Batched
re-posting (0x1000) and the lazy consumer counter (0x2000) are on. A timeout or an error CQE is a step that raises the
abort flag at any time.

About the target: the data pieces of a command are memory of their own, and their total is the length of the command.

## Where the code and its promises differ

* The clamps of `src/gpu_initiated.c:1461-1478` are computed in unsigned arithmetic. With 16 or fewer recvs posted, or a
  CQ of 32 entries or fewer, the bound wraps and QD is not lowered; with exactly 17 recvs QD becomes 0 and no submitter
  runs. `HostPlan.LowerQd` states when the result is right, both ways.
* The host's CQ check (`src/gpu_initiated.c:1804-1839`) compares a 24-bit record with a sum that is not cut to 24 bits.
  `HostAudit.CqVerdict` and `HostAudit.AlarmExact` give the exact condition at launch, `HostAudit.FalseAlarm` a launch
  with a run that fails it without fault.
* `cq_ci_written` starts at 0 whatever the doorbell record holds; the model starts it there, and the invariant shows that
  this costs at most one redundant write.
* `kv_delete` and the capacity check of `kv_store` add key and value length in 32 bits (`bdev_kv_emu.c:328`,
  `bdev_kv_emu.c:404`). `KvSpec.DeleteExactIff` gives the exact condition, `KvSpec.CountLeaks` an input; a
  `max_value` of 2^32 - 17 or less rules it out (`KvServer.Server.Accounts`).
* Blocks of different seeds can share all their mixed words at LBAs of 2^56 and more (`BlkPattern.SeedShows`,
  `BlkPattern.SeedHides`).

## Model

| member | source | states |
|---|---|---|
| `Safety.ExactlyOnce` | src/gpu_io_kernel.cpp:712-726 | at any point of any run a status in a job's `c_stat` entry is the status of the one response to that job's own command; no job is recorded twice; when every submitter has left without an abort every job is recorded |
| `Safety.ClaimedOnce` | src/gpu_io_kernel.cpp:712-726 | two successful claims of a run leave their submitters holding different jobs |
| `Safety.NeverDry` | src/gpu_io_kernel.cpp:353-373 | with batched re-posting and `qd + 16 <= posted recvs`, the recvs the NIC sees through the 16-bit dbrec[0] cover every exposed, unanswered command in every reachable state, also while a tag is DONE and its recv not yet back |
| `Tightness.DryWithoutClamp` | src/gpu_io_kernel.cpp:459-509 | the bound is exact: for every queue pair with `qd + 16 > posted recvs` and more jobs than recvs some run reaches a state in which the NIC sees fewer recvs than it owes responses |
| `Tightness.ClampIsExact` | src/gpu_initiated.c:1461-1473 | for every valid configuration, all runs keep the recv bound if and only if QD meets the host's clamp or there are no more jobs than recvs posted at takeover |
| `Tightness.LaunchExists` | src/gpu_io_kernel.cpp:1537-1571 | every valid configuration can be launched, so the statements about all its runs are about some |
| `Safety.CqNeverOverflows` | src/gpu_io_kernel.cpp:376-391 | when a command's SEND CQE precedes its response CQE, the CQEs held against the 24-bit CQ dbrec never exceed `2*qd + 32`, so under the host's clamp the NIC always has room |
| `Overflow.OverflowsUnordered` | src/gpu_io_kernel.cpp:376-391 | where SEND CQEs may come after the responses of their commands, and the signalled commands of the run outnumber the CQ entries, some run reaches a SEND CQE that is due and has no room, whatever QD is, with selective signalling or without |
| `Overflow.RoomUnordered` | src/gpu_io_kernel.cpp:376-391 | in any order of CQEs, a due CQE always has room if the signalled commands of the run plus the smaller of `njobs` and `qd + 32` do not exceed the CQ entries |
| `Overflow.BoundReached` | src/gpu_io_kernel.cpp:376-391 | the bound `2*qd + 32` is reached: without selective signalling, from an even takeover counter, some run leaves exactly that many CQEs against the CQ dbrec |
| `Safety.SqSafe` | src/gpu_io_kernel.cpp:812-895 | every WQE between the NIC's retired position and dbrec[1] stands whole under its own counter with its capsule in place, for one- and two-block entries, ring wraps included; dbrec[1] is the 16-bit count |
| `Safety.StreamExact` | src/gpu_io_kernel.cpp:567-643 | the owner/opcode test succeeds exactly when the NIC has written the CQE numbered ci and then names that CQE; phase is the lap parity; no cid or `wqe_counter` mismatch is ever counted |
| `Safety.BuffersSafe` | src/gpu_io_kernel.cpp:459-509 | in every reachable state, also while a full batch is flushed, the recv descriptors in the window are the ones taken over, pairwise distinct, and the response at hand is read as the NIC delivered it |
| `Runs.StepKeeps` | src/gpu_io_kernel.cpp:1089-1337 | every step of a submitter, of the consumer or of the NIC keeps the whole invariant |
| `Runs.InitKeeps` | src/gpu_io_kernel.cpp:1537-1571 | the state at launch, with queues as taken over, satisfies the invariant |
| `Runs.RunKeeps` | src/gpu_io_kernel.cpp:548-658 | the invariant holds in every state of every run, whatever the interleaving |
| `SubmitterSteps.ClaimKeeps` | src/gpu_io_kernel.cpp:712-726 | winning the CAS takes the next job and no other |
| `SubmitterSteps.MarkKeeps` | src/gpu_io_kernel.cpp:1160-1176 | POSTED is stored before the command can be exposed, so a DONE is never overwritten |
| `SubmitterSteps.LockKeeps` | src/gpu_io_kernel.cpp:728-748 | at most one submitter is between lock and unlock |
| `SubmitterSteps.WriteLoKeeps` | src/gpu_io_kernel.cpp:822-860 | writing the first block touches no entry the NIC still owns |
| `SubmitterSteps.WriteHiKeeps` | src/gpu_io_kernel.cpp:861-873 | writing the second block, possibly in slot 0, touches no entry the NIC still owns |
| `SubmitterSteps.RingKeeps` | src/gpu_io_kernel.cpp:874-883 | the dbrec store exposes exactly one complete entry under the next counter |
| `SubmitterSteps.StorePiKeeps` | src/gpu_io_kernel.cpp:1072-1087 | `sq_pi` written back is the counter of the next post |
| `SubmitterSteps.NoteKeeps` | src/gpu_io_kernel.cpp:1296-1318 | the status noted for a job is that of its own command |
| `SubmitterSteps.ReleaseKeeps` | src/gpu_io_kernel.cpp:1296-1318 | a tag made IDLE again carries nothing over to the next job |
| `SubmitterSteps.GiveUpKeeps` | src/gpu_io_kernel.cpp:1262-1272 | a submitter that gives up on an abort records that it did not wait, once |
| `ConsumerSteps.ReadsOwn` | src/gpu_io_kernel.cpp:190-256 | the response at hand, scattered into the CQE or found through the RQ slot of `wqe_counter`, is the one that came with that CQE |
| `ConsumerSteps.NameKeeps` | src/gpu_io_kernel.cpp:257-283 | the cid read names the tag of the command answered, so no cid is ever refused |
| `ConsumerSteps.PublishKeeps` | src/gpu_io_kernel.cpp:284-323 | publishing DONE or NVME_ERR before the recv is re-posted and ci advances keeps the invariant |
| `ConsumerSteps.PutRingKeeps` | src/gpu_io_kernel.cpp:459-492 | the descriptor written at the head overwrites no unprocessed recv |
| `ConsumerSteps.PutShadowKeeps` | src/gpu_io_kernel.cpp:493-509 | shadow and ring agree again on the whole window; a full batch is flushed |
| `ConsumerSteps.AdvanceKeeps` | src/gpu_io_kernel.cpp:512-546 | advancing ci keeps phase, entry stream and lazy counter consistent |
| `SendQueue.NoOverlap` | src/gpu_io_kernel.cpp:812-830 | no block of a new WQE falls on a block of a WQE not yet retired |
| `SendQueue.ExposeGood` | src/gpu_io_kernel.cpp:874-883 | the 16-bit dbrec after a post says exactly which entries exist |
| `SendQueue.FetchGood` | src/gpu_io_kernel.cpp:1072-1087 | what the NIC fetches below dbrec[1] is the next posted entry, whole |
| `SendQueue.SignalExact` | src/gpu_io_kernel.cpp:822-824 | n posts from any counter ask for exactly one SEND CQE per multiple of 32 crossed, for one and two blocks per entry, across the 16-bit wrap |
| `RecvQueue.ReadBack` | src/gpu_io_kernel.cpp:226-244 | the buffer reached through the slot of the 16-bit `wqe_counter` still holds the unhandled response that came in it |
| `RecvQueue.WindowConserved` | src/gpu_io_kernel.cpp:459-509 | the window of posted or unhandled recvs is a rotation of the one taken over: same multiset, pairwise distinct |
| `RecvQueue.CanTakeExact` | src/gpu_io_kernel.cpp:353-373 | the NIC's 16-bit comparison with dbrec[0] says exactly whether a posted recv is left |
| `CompletionQueue.FreshExact` | src/wqe_build.h:382-404 | owner bit and opcode pick out exactly the CQE numbered ci: blank entries, older laps and CQEs from before takeover are not taken |
| `CompletionQueue.ProduceGood` | src/gpu_io_kernel.cpp:512-546 | the NIC's next CQE spoils no unread one while the CQ dbrec leaves room |
| `CompletionQueue.AdvanceGood` | src/gpu_io_kernel.cpp:512-546 | toggling phase at the ring end keeps it equal to `(ci / cq_cnt) & 1` |
| `CompletionQueue.RoomExact` | src/gpu_io_kernel.cpp:512-521 | the 24-bit overflow test is exact |
| `Progress.StepShrinks` | src/gpu_io_kernel.cpp:1113-1272 | every step but idling (a turn of flushes with jobs outstanding, a timeout's abort) strictly lowers a natural-number rank over unclaimed jobs, stages of claimed jobs, NIC work and unconsumed CQEs; idling leaves it where it is |
| `Progress.RankBounded` | src/gpu_io_kernel.cpp:1113-1272 | the rank of a reachable state is not negative |
| `Progress.WorkBounded` | src/gpu_io_kernel.cpp:548-658 | however long a run is, at most `40*njobs + qd + 12` of its steps are not idling |
| `Progress.NeverStuck` | src/gpu_io_kernel.cpp:548-658 | under the clamps and with SEND CQEs first, a run that is neither over nor aborted comes, now or after the rest of the idle turn, to a step that lowers the rank |
| `Progress.CanFinish` | src/gpu_io_kernel.cpp:1113-1272 | every run nobody has aborted extends, by steps of the blocks and of an answering NIC, to an end with all blocks out, `done_cnt == njobs` and each job recorded once |
| `Progress.LogBounded` | src/gpu_io_kernel.cpp:512-521 | a run never holds more than two CQEs per command |
| `Audit.FinalCounts` | src/gpu_io_kernel.cpp:644-649 | after an error-free run every job had one command, one response, one count, nothing is pending and the CQ counter shown is ci |
| `Audit.FinalDoorbells` | src/gpu_initiated.c:1804-1839 | after an error-free run SQ dbrec is `pi0 + njobs*bb`, RQ dbrec grew by the responses, CQ dbrec is `ci0 + req + resp`, each in its width |
| `Audit.AuditVerdict` | src/devx_qp.c:753-790 | the SQ and RQ checks pass on every error-free run; the CQ check passes exactly when the 32-bit sum it uses is below 2^24 |
| `Audit.ChecksCatch` | src/devx_qp.c:753-790 | in any state of any run the SQ check passes exactly if the blocks of the commands exposed equal those of `njobs` commands modulo 2^16, the RQ check exactly if the recvs given back equal the responses counted modulo 2^16 |
| `HostAudit.CountResults` | src/gpu_initiated.c:1627-1638 | the loop over `c_stat` counts the jobs with a response and those whose status is 0 or 1 |
| `HostAudit.ResultsAddUp` | src/gpu_initiated.c:1627-1638 | after an error-free run every job has a response, the entries of `c_stat` other than 0 and 1 are `nvme_err` in number, those with 0 or 1 and `nvme_err` add up to the responses, and `rq_reposted`, the growth of `rq_head`, equals the responses |
| `HostAudit.OkFields` | src/gpu_io_kernel.cpp:311-318 | of the fields of a status, success is code, type and upper bits zero, whatever the phase tag |
| `HostAudit.ErrorsCounted` | src/gpu_io_kernel.cpp:284-323 | at any time `nvme_err` is the number of responses passed whose status is neither 0 nor 1 |
| `HostAudit.SeesOutcome` | src/gpu_io_kernel.cpp:284-323 | a waiting submitter sees DONE exactly when its own job's response has been passed with status 0 or 1, NVME_ERR exactly when with any other |
| `HostAudit.FinalRequests` | src/gpu_io_kernel.cpp:644-649 | with SEND CQEs first, an error-free run counts as many of them as commands asked for one |
| `HostAudit.AskedExact` | src/gpu_io_kernel.cpp:907-909 | that number is `njobs`, or with selective signalling the multiples of 32 the producer counter crosses |
| `HostAudit.CqVerdict` | src/devx_qp.c:753-790 | with SEND CQEs first, the CQ check of an error-free run passes if and only if, at launch, `(ci0 + njobs + signalled) mod 2^32 < 2^24` |
| `HostAudit.AlarmExact` | src/gpu_initiated.c:1804-1839 | an error-free run that fails the CQ check exists exactly when that condition does not hold |
| `HostAudit.AlarmAtEdge` | src/gpu_initiated.c:1804-1839 | from consumer counter 2^24 - 1 every error-free run with a job fails the check, in any order of CQEs |
| `HostAudit.FalseAlarm` | src/gpu_initiated.c:1804-1839 | one job on a queue pair taken over at counter 2^24 - 1 has an error-free run that fails the check |
| `HostPlan.LowerQd` | src/gpu_initiated.c:1461-1478 | the QD that is left is the largest that meets both clamps, exactly when the queues are deep enough (more than 17 recvs posted, a CQ of more than 32); below that the unsigned bounds wrap or give 0 |
| `HostPlan.UsableClamps` | src/gpu_initiated.c:1461-1478 | a usable QD meets the two bounds the protocol needs |
| `HostPlan.SqFits` | src/devx_qp.c:286-289 | QD commands fit the SQ exactly when their blocks do |
| `HostPlan.DevxLaunchable` | src/devx_qp.c:286-289 | on the 512-entry queues the program makes itself, a usable QD within the parser's limit gives a valid configuration under both clamps, for one- and two-block entries |
| `HostPlan.FillSlices` | src/gpu_initiated.c:1483-1491 | the per-QP slices written tile 0..rounds in order and differ in size by at most one |
| `HostPlan.OneOwner` | src/gpu_initiated.c:1483-1491 | each global job lies in exactly one QP's slice |
| `HostPlan.AllJobsOnce` | src/gpu_initiated.c:1479-1491 | over all queue pairs, an abort-free launch leaves in every global job's entry the status of the one response of the one QP that answers it |
| `Consumer.HandleIsSteps` | src/gpu_io_kernel.cpp:401-444 | one pass over a CQE in one go is exactly what the consumer's individual visible stores come to |
| `Consumer.SettleIsSteps` | src/gpu_io_kernel.cpp:394-399 | an idle flush is exactly the idle steps of the transition system |
| `Consumer.NextResponse` | src/gpu_io_kernel.cpp:190-244 | the CQE handled next is the one at ci, from the recv at the tail, read unharmed |
| `Consumer.OneInStep` | src/gpu_io_kernel.cpp:401-444 | handling a CQE does to tags and counters what the sequential consumer does with the next event of the stream |
| `Consumer.AllInStep` | src/gpu_io_kernel.cpp:666-706 | so does every mixture of NIC writes, handled CQEs and flushes |
| `Consumer.ModesAgree` | src/gpu_io_kernel.cpp:548-706 | poller, poll steps handed from holder to holder and the serial fast path end alike on the same CQE stream: same tags, counters, ring window and doorbell records, wherever the flushes fell |
| `Consumer.ModesAgreeFromLaunch` | src/gpu_io_kernel.cpp:548-706 | they agree on every run from launch on |
| `Consumer.LeanPi` | src/gpu_io_kernel.cpp:1180-1186 | the lean path's `sq_pi + j*bb` in 32 bits is, in 16 bits, the counter the locked path uses |
| `Poller.Poller.RqRepost` | src/gpu_io_kernel.cpp:459-509 | copying a descriptor word by word does to ring and shadow exactly the abstract re-post |
| `Poller.Poller.HandleResp` | src/gpu_io_kernel.cpp:190-324 | a response whose cid carries the mark and a tag below QD leaves that tag its status, DONE for 0 and 1 and NVME_ERR otherwise, and is counted; any other cid aborts and changes no tag; a `wqe_counter` off the tail is counted; and this is what one response does to the abstract consumer |
| `Poller.Poller.AdvanceCi` | src/gpu_io_kernel.cpp:512-546 | the imperative advance is the abstract one |
| `Poller.Poller.ConsumeOne` | src/gpu_io_kernel.cpp:401-444 | consume_one in place equals the specification of handling one CQE |
| `Poller.Poller.IdleFlush` | src/gpu_io_kernel.cpp:353-399 | idle_flush in place publishes what is pending and the current ci |
| `Poller.Poller.Turn` | src/gpu_io_kernel.cpp:1205-1246 | one turn of a polling loop handles the CQE at ci if it is new and flushes otherwise |
| `Poller.Poller.PollStep` | src/gpu_io_kernel.cpp:666-706 | a poll step handles up to 32 CQEs, then flushes, and stops short only when none is left |
| `Poller.Poller.HeldStep` | src/gpu_io_kernel.cpp:666-706 | a holder of `cq_lock` that takes position and counters from the shared area, whatever its registers held, and hands them back makes exactly the moves of one poll step |
| `Poller.Poller.NicTurn` | src/gpu_io_kernel.cpp:512-521 | what the NIC writes between two looks is what its room and recv tests allow, and keeps the consumer in step |
| `Poller.Poller.Poll` | src/gpu_io_kernel.cpp:548-658 | with the NIC writing between any two looks the poller stays in step with the stream, and unless a cid is refused ends with every CQE handled, timed out exactly if jobs are missing |
| `Poller.CopyWords` | src/gpu_io_kernel.cpp:459-492 | the word loop copies the whole descriptor even when source and target slot coincide |
| `KvTable.KvHash` | tst/kv_target/bdev_kv_emu.c:126-136 | the loop computes the bucket of a key from its length and all its bytes |
| `KvTable.OneByteTells` | tst/kv_target/bdev_kv_emu.c:126-136 | keys of one length that differ in the bits of a single byte have different 32-bit hashes before masking |
| `KvTable.KnownHashes` | tst/kv_target/bdev_kv_emu.c:126-136 | the hash before masking of two given keys |
| `KvTable.KvPoolClass` | tst/kv_target/bdev_kv_emu.c:156-165 | the class found is the smallest whose buffers hold the length, and a 32-bit length always has one |
| `KvTable.Kv.Find` | tst/kv_target/bdev_kv_emu.c:139-150 | walking a bucket finds a key's entry and its predecessor exactly when the key is stored |
| `KvTable.Kv.Replace` | tst/kv_target/bdev_kv_emu.c:334-356 | the locked part of an overwrite changes one key's value, frees the old buffer to the caller and keeps the table valid |
| `KvTable.Kv.Insert` | tst/kv_target/bdev_kv_emu.c:338-354 | the locked part of an insert adds one entry in front of its chain and keeps the table valid |
| `KvTable.Kv.Remove` | tst/kv_target/bdev_kv_emu.c:391-410 | the locked part of a delete takes one entry out of its chain and gives back the 32-bit sum of its sizes |
| `KvTable.Kv.PoolTake` | tst/kv_target/bdev_kv_emu.c:181-192 | the first free buffer of the class, and only it, leaves its list |
| `KvTable.Kv.Adopt` | tst/kv_target/bdev_kv_emu.c:193-204 | new memory enters the accounts once, in its request's hands |
| `KvTable.Kv.PoolPut` | tst/kv_target/bdev_kv_emu.c:206-219 | a returned buffer goes to the list of its own class |
| `KvTable.Kv.WhereBuf` | tst/kv_target/bdev_kv_emu.c:156-219 | a buffer is on a free list, in one entry or in a request's hands, never in two places and never on a list of the wrong class |
| `KvIov.IovToBuf` | tst/kv_target/bdev_kv_emu.c:241-254 | gathering copies the first bytes of any scatter list and nothing else |
| `KvIov.BufToIov` | tst/kv_target/bdev_kv_emu.c:257-274 | scattering fills any list with the bytes that fit, then zeros |
| `KvCommands.StoreLocked` | tst/kv_target/bdev_kv_emu.c:291-358 | under the lock a store has exactly the effect and status of the map command, with the 32-bit sizes of the code |
| `KvCommands.DeleteLocked` | tst/kv_target/bdev_kv_emu.c:391-410 | under the lock a delete has exactly the effect and status of the map command |
| `KvCommands.RetrieveLocked` | tst/kv_target/bdev_kv_emu.c:360-378 | a retrieve shows min(value, HBS, SGL) bytes then zeros, and reports the full length |
| `KvCommands.ExistLocked` | tst/kv_target/bdev_kv_emu.c:380-389 | exist answers whether the map has the key |
| `KvCommands.TakeFree` | tst/kv_target/bdev_kv_emu.c:168-192 | the buffer taken from the pool is of the class of the length |
| `KvCommands.Gather` | tst/kv_target/bdev_kv_emu.c:291-315 | the value comes in outside the lock, into a buffer nobody else knows |
| `KvCommands.GiveBack` | tst/kv_target/bdev_kv_emu.c:206-219 | the buffer left over goes back after the lock is released |
| `KvServer.Server.Step` | tst/kv_target/bdev_kv_emu.c:291-410 | any section of any request may run next and keeps the invariant; the log grows by the command exactly in its table-lock section |
| `KvServer.Server.Serve` | tst/kv_target/bdev_kv_emu.c:291-410 | every schedule of sections of concurrent requests keeps the table equal to the commands run one after the other |
| `KvServer.Server.OneTurn` | tst/kv_target/bdev_kv_emu.c:291-410 | each answered request took effect exactly once and was told what is right at that point |
| `KvServer.Server.Accounts` | tst/kv_target/bdev_kv_emu.c:94-104 | after any schedule the table is the map, `nkeys` its size, `used` at most the capacity and equal to the bytes held while every stored pair fits 32 bits |
| `KvServer.Server.NothingAstray` | tst/kv_target/bdev_kv_emu.c:168-219 | when all requests are done every buffer is on its class's free list or holds exactly one key's value |
| `KvServer.Server.RoundTrip` | tst/kv_target/bdev_kv_emu.c:241-378 | a stored value, after commands on other keys only, is retrieved into any scatter list as its first min(value, HBS, SGL) bytes then zeros, with DW0 the full length |
| `KvSpec.OtherKeys` | tst/kv_target/bdev_kv_emu.c:291-410 | commands on other keys leave a key's value alone |
| `KvSpec.StoredIsRetrieved` | tst/kv_target/bdev_kv_emu.c:291-378 | what a successful store left is what a later retrieve answers |
| `KvSpec.AfterSane` | tst/kv_target/bdev_kv_emu.c:325-333 | no command lets the count rise above the capacity or fall below the bytes held |
| `KvSpec.RunExact` | tst/kv_target/bdev_kv_emu.c:325-333 | commands whose pairs fit 32 bits leave the count equal to the bytes held |
| `KvSpec.DeleteExactIff` | tst/kv_target/bdev_kv_emu.c:404-406 | a delete keeps the count right if and only if key length plus value length is below 2^32 |
| `KvSpec.CountLeaks` | tst/kv_target/bdev_kv_emu.c:404-406 | a 16-byte key with a value of 2^32 - 16 bytes leaves 2^32 bytes charged to an empty table |
| `KvLaws.Holds` | tst/kv_target/bdev_kv_emu.c:291-410 | a key is in the table exactly if a store of it succeeded that no delete followed, and its value is that of the last such store |
| `KvLaws.StoreTold` | tst/kv_target/bdev_kv_emu.c:317-333 | by the history alone: an insert-only store of a key that is there is answered 0x89, an update-only store of one that is not 0x87; any other succeeds exactly if the pairs then held fit the capacity (while pairs fit 32 bits), else 0x81; a refused store changes nothing |
| `KvLaws.ReadTold` | tst/kv_target/bdev_kv_emu.c:360-389 | Exist and Retrieve answer 0 or 0x87 by whether the key is there, Retrieve with the value stored last |
| `KvLaws.DeleteTold` | tst/kv_target/bdev_kv_emu.c:391-410 | after a Delete the key is absent and the others are as before; it is answered 0x87 only for an absent key under `ednek` |
| `KvLaws.GoneTillStored` | tst/kv_target/bdev_kv_emu.c:391-410 | a deleted key stays absent through any commands that do not store it |
| `KvLaws.DeletedIsGone` | tst/kv_target/bdev_kv_emu.c:380-410 | under any schedule, an Exist or Retrieve that takes effect after a Delete of its key, no store of it between, is answered 0x87 |
| `KvLaws.ToldByHistory` | tst/kv_target/bdev_kv_emu.c:291-410 | under any schedule, every request that reached the table has the status that the history of commands before it makes right |
| `KvLaws.TurnedAway` | tst/kv_target/bdev_kv_emu.c:301-307 | exactly the stores longer than the limit (0x85) or than their data (0x02) are turned away before the table |
| `KvLaws.RetrieveShows` | tst/kv_target/bdev_kv_emu.c:360-378 | a Retrieve finds byte by byte the value stored last, cut at its length and its list, zeros after it, and the whole length in DW0 |
| `KvList.KeysOnce` | tst/kv_target/bdev_kv_emu.c:412-466 | bucket and chain order names every stored key exactly once |
| `KvList.List` | tst/kv_target/bdev_kv_emu.c:417-466 | the page returned holds as many records as fit, from the start key on if it is stored and from the beginning otherwise |
| `KvList.FitAt` | tst/kv_target/bdev_kv_emu.c:446-459 | stopping at the first record that does not fit takes exactly as many as fit |
| `KvList.PageCounts` | tst/kv_target/bdev_kv_emu.c:446-462 | a page begins with the number of its records, low byte first |
| `KvList.RecordStands` | tst/kv_target/bdev_kv_emu.c:446-459 | each record is a length byte, a zero, and the key, and starts where the records before it end |
| `KvClient.ParseUndoesPage` | tst/kv_target/kv_smoke.c:282-304 | taking a page apart gives back the keys it was made from, for keys of 1 to 16 bytes |
| `KvClient.ReadPage` | tst/kv_target/kv_smoke.c:331-361 | reading a page of 16-byte keys reports them in order, without the first on later pages, and finds the last |
| `KvClient.WalkTable` | tst/kv_target/kv_smoke.c:305-373 | on an unchanging table of 16-byte keys, paging with the List command itself reports the stored keys in bucket and chain order, each once, as far as its pages reach: all of them when a page holds two records and there are as many pages as keys |
| `KvClient.AllVisited` | tst/kv_target/kv_smoke.c:305-373 | with pages of at least two records and as many pages as keys, every key is reported |
| `KvClient.SmallPages` | tst/kv_target/kv_smoke.c:305-373 | with pages of one record the loop stops after one key, with smaller ones after none |
| `Wire.ByteOrders` | src/wqe_build.h:286-321 | known answers for the little- and big-endian words and the cid |
| `Bytes.LowByteFirst` | src/blk_pattern.h:92-103 | eight bytes make a word low byte first |
| `Wire.BuildRw` | src/wqe_build.h:140-177 | the structure stores leave exactly the 16 words of a read or write command |
| `Wire.RwReads` | src/wqe_build.h:140-177 | those 64 bytes read back: opcode, cid, namespace, address, 24-bit length, key, descriptor type, first block, block count, and zeros elsewhere |
| `Wire.BuildKv` | src/wqe_build.h:242-271 | a KV capsule has key bytes 0-7 in CDW2/3 and 8-15 in CDW14/15, padded, and lengths and options in CDW10/11 |
| `Wire.KvReads` | tst/kv_target/bdev_kv_emu.c:468-525 | the target reads back opcode, key, key length, CDW10, the options and the store conditions as built, and admits the command; cid, namespace, address, key and type of the descriptor stand in their places, with zeros elsewhere; the SGL length agrees in 24 bits |
| `Wire.AdmitSays` | tst/kv_target/bdev_kv_emu.c:497-513 | by opcode and key length, which requests reach the table and what the others are refused for |
| `KvPath.CapsuleSays` | tst/kv_target/bdev_kv_emu.c:468-525 | the request the target makes of a Store or Retrieve capsule has the client's key, lengths and conditions |
| `KvPath.StoredComesBack` | tst/kv_target/bdev_kv_emu.c:241-378 | a value stored by one capsule is what another capsule with the same key retrieves, after any commands on other keys: its first min(value, HBS, SGL) bytes, then zeros, with DW0 the length the first one named |
| `Wire.BuildSend` | src/wqe_build.h:286-321 | the structure-built SEND WQE, flag taken back when unsignalled, is the 32-byte layout |
| `Wire.PostReg` | src/gpu_io_kernel.cpp:911-955 | the register-built WQE is the same 32 bytes for every counter, queue, address and key |
| `Wire.PostInline` | src/gpu_io_kernel.cpp:812-873 | the twelve 64-bit stores leave a SEND control segment, an inline header, exactly the capsule the builder makes, and zeros, split over two blocks |
| `Wire.CtrlReads` | src/wqe_build.h:286-321 | the control segment holds the 16-bit counter, opcode 0x0a and the size in its six bits |
| `Wire.EntryReads` | src/wqe_build.h:286-321 | the bytes of the 32-byte WQE give back counter, opcode, 24-bit queue number, size, completion flag (set exactly if signalled), length, key and address, with zeros elsewhere |
| `Wire.InlineReads` | src/gpu_io_kernel.cpp:812-873 | the bytes of the inline WQE give back the same control fields, the inline header, and the capsule byte for byte, then zeros |
| `Wire.DumpReads` | src/devx_qp.c:725-751 | the dump of an inline entry recovers every field, block counts from 1 to 65536 included |
| `BlkPattern.MixIsBijection` | src/blk_pattern.h:47-54 | the 64-bit mixing function has an explicit inverse on both sides |
| `BlkPattern.MixOfZero` | src/blk_pattern.h:47-54 | the mixing function gives the first output of the published generator |
| `BlkPattern.KnownWord` | src/blk_pattern.h:56-66 | a known word of a given block |
| `BlkPattern.LbaShows` | src/blk_pattern.h:56-66 | for one seed, two LBAs differ in every word from 1 on |
| `BlkPattern.WordsDiffer` | src/blk_pattern.h:56-66 | the words from 2 on inside a block are pairwise distinct |
| `BlkPattern.SeedShows` | src/blk_pattern.h:56-66 | blocks of two seeds share a mixed word exactly when seed and LBA fold to the same word, never for LBAs below 2^56 |
| `BlkPattern.SeedHides` | src/blk_pattern.h:56-66 | seed 0 at LBA 2^56 and seed 1 at LBA 0 share every mixed word |
| `BlkPattern.Fill` | src/blk_pattern.h:105-115 | filling writes the pattern of every word |
| `BlkPattern.Check` | src/blk_pattern.h:134-178 | OK exactly for the pattern block; FILL exactly for a block of one byte; CROSS and OLDSEED exactly if the first 16 bytes name another LBA, or another seed; BAD otherwise; and bad_off is the least differing byte |
| `BlkPattern.TornTold` | src/blk_pattern.h:134-178 | a block that names the right seed and LBA and is wrong in any later byte is BAD |
| `BlkPattern.CrossTold` | src/blk_pattern.h:134-178 | another LBA's block is reported as CROSS with that LBA |
| `BlkPattern.OldSeedTold` | src/blk_pattern.h:134-178 | another seed's block is reported as OLDSEED with its seed and LBA |
| `BlkPattern.FillTold` | src/blk_pattern.h:134-178 | a block of one byte is reported as FILL with that byte |
| `BlkPattern.MisplacedEverywhere` | src/blk_pattern.h:47-66 | a misplaced block is wrong in every eight bytes after the first |
| `BlkPattern.MakeKey` | src/blk_pattern.h:80-90 | the key written is index then tagged seed, little-endian |
| `BlkPattern.KeysApart` | src/blk_pattern.h:80-90 | keys are equal only for equal seed and index, and index and tagged seed can be read back |

## Left out

- SPDK, verbs, DevX, rdma_cm and MACA calls, memory registration, connection and queue-pair set-up: foreign calls.
- Fence strength, nontemporal versus volatile accesses, L2 visibility, BlueFlame spacing: stores are ordered atomic steps.
- The doorbell write itself: it carries no state beyond the doorbell record written before it.
- The granularity of stores inside one 64-byte WQEBB: a block is written in one step, two blocks in two.
- Clocks, profiling, time stamps, latency statistics: a timeout is the abort step.
- `-O` bits 0x200 and 0x400, and the two tight bounds without 0x1000 and 0x2000: experiments.
- 32-bit wrap of job numbers, `ci`, `rq_head` and the counters inside one run: the model's counters are unbounded.
- The address-range check on a recv buffer: a descriptor that names no written buffer is read as a refused cid.
- DW0 of a response on its way through the tag, and error CQEs other than as an abort.
- The return value of `mlx5_build_send_wqe`: the kernel rings with the control segment instead.
- 64-bit wrap of the capacity sum, out-of-memory in `kv_store`, `kv_list` and the pool: calls into the allocator.
- List inside the concurrent server: it runs under the table lock throughout, changes nothing, and is proved by itself.
- The per-opcode counters of the target and its status for an unknown opcode beyond the gate in `Wire.Admit`.
- KvServer.Server.Serve: the data pieces of a request are not shared with another request, as SPDK provides them; List is
  not among the sections, see above.
- KvCommands.StoreLocked: the branch for an entry that cannot be allocated, as for every allocation.
- KvList.List: the branch for a page buffer that cannot be allocated.
- Poller.Poller.HandleResp: DW0 and the address-range test on a recv buffer, see above.
- Poller.Poller.ConsumeOne: error CQEs, which in `Protocol` are the abort step.
- Consumer.ModesAgree: a mode handles a CQE in one go, NIC writes falling between; in `Protocol` they fall anywhere, and
  `Consumer.HandleIsSteps` ties the two together.
- Overflow.RoomUnordered: between its condition and that of `Overflow.OverflowsUnordered` neither is claimed.
- Overflow.BoundReached: with selective signalling, or from an odd counter, the greatest backlog is not stated.
- KvClient.WalkTable: keys of 16 bytes only; with shorter keys the client copies 16 bytes and restarts from the beginning;
  the table does not change meanwhile.
- Wire.KvReads: key lengths 1 to 16, the lengths the builder documents.
- Progress.CanFinish: fairness of scheduling, which a GPU gives or not; a completing extension exists, and only so many
  steps of any run are not idling.
- Probes, benchmarks, report scripts, option parsing, JSON-RPC, bdev registration.
