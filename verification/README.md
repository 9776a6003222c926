# Slingshot link driver: a verified model

A Dafny model of the parts of the `sl` link driver whose behaviour cannot be read off one function: the two-layer
link session, the notification queue, the FEC monitor, the reading of media lane data, and two self-contained
algorithms (the cable database generator and the bit-map texts). Check it all with

    dafny verify dfyconfig.toml

## What is modelled

**The link session** (`LinkModel`, `LinkSession`, `LinkTheorems`, `LinkReports`, `LinkCommands`, `LinkEndings`,
`LinkLateFault`, `LinkObjects`). The control layer drives the core layer through up, down, cancel and async-down,
and the core's work items call back. `LinkModel` says what each command and callback does, as functions.
`LinkSession` is the step relation: one step is one API call, or one callback with the core state change in front
of it, in any order the environment contract allows, with arbitrary clock readings, causes and outcomes. The
contract is the one the core work keeps (`core/hw/sl_core_hw_link.c`): an attempt ends UP, or DOWN through
GOING_DOWN or TIMEOUT; a commanded down ends DOWN with its registered callback; a fault runs its start callback and
then ends DOWN; and a canceled attempt runs the up callback first and the down callback after it. `LinkTheorems`
holds what is true of every run from a link as it is created. `LinkReports` is about what the counters and clocks
say. `LinkCommands` takes the commands apart: the state change under the lock and, with the lock given back, the
call of core. `LinkEndings` takes the ending of a session apart into its four actions. Both let everything else
come between the parts. `LinkLateFault` adds the fault interrupt that is served while a commanded down is on its
way. `LinkObjects` is the driver's own form, two classes whose fields are overwritten; a control link is valid when
a run of `LinkSession` leads to its state, every method takes one step of such a run, and its contract says what
its caller may rely on. `Account` is bookkeeping for stating all this; no modelled code reads it.

**The notification queue** (`NotifRegistry`, `NotifProtocol`, `NotifFlush`). The registry, its edits and the
handing out of a message, as functions and as a class with loops; and the protocol of producers, clients and the
work item at the granularity of the lock sections, for any number of producers. `NotifFlush` adds the threads that
wait for the work, and ties their waits to the endings of a link.

**The FEC monitor** (`FecMonitor`, `FecSampling`, `FecLimits`). Timer, work item and stop flag under every
interleaving, both how it stops and how it keeps going; the two buffers behind two pointers, on the heap; the limit
check, the three-chance rule, the limits worked out from the rate, and the bit error rate, all with the 64-bit
arithmetic of the code.

**Media lane data** (`MediaLanes`). The read-until-stable loop over a bus with arbitrary answers, and the swap of
the two lane groups, on bytes.

**The cable database generator** (`CableDb`; `CableText` for the cells as text) and **bit maps as text**
(`MapText`).

## Where the code does not do what one would expect

The model follows the code. Each of these is a lemma with a concrete case and, beside it, the exact condition.

- A canceled attempt announces two endings, UP_FAIL and then DOWN, because the cancel work makes both callbacks
  (`LinkTheorems.CanceledTwice`). The first of them also counts the attempt as failed, so no attempt is left for
  the down callback to account for (`LinkTheorems.Reachable`). As long as no fault is served during a commanded
  down, a session announces one ending, plus one exactly when the second callback of a cancel finds the core still
  DOWN (`LinkTheorems.SessionEndings`).
- A fault served during a commanded down ends the session first, and a down work past its look at the state ends it
  again (`LinkLateFault.FaultAndDownTold`): one more ending for each such work
  (`LinkLateFault.LateSessionEndings`). If a link-up comes between the two, its attempt is lost
  (`LinkLateFault.AttemptLost`), exactly when it is still pending when the down work ends
  (`LinkLateFault.LateDownExact`); callers that make no link-up while a down work is late lose nothing
  (`LinkLateFault.WaitingCallers`).
- A down accepted by the control layer can be rejected by core, the link staying UP: the attempt comes up after the
  state has become STOPPING and before core is called (`LinkCommands.DownRejected`). As long as no link-up comes
  between, core rejects a cancel exactly when core is UP or the link DOWN by then, and the down of a link that was
  UP exactly when the link is DOWN by then (`LinkCommands.RejectedExactly`).
- A down claimed while a link-up is between its two parts is rejected, and the link-up forgets it and goes on
  (`LinkCommands.LinkUpGoesOn`). A down whose session is over when it calls core cancels the attempt of the next
  one (`LinkCommands.CancelAstray`). The moves that part the layers are exactly these two and the down of a link
  that is UP and unclaimed (`LinkCommands.UncoupledExactly`). Nothing of the kind happens to callers of link-ups
  who first let other commands and a canceled session finish, and callers of downs who let a link-up finish
  (`LinkCommands.PoliteCallers`).
- A link-up made between an ending's setting the state DOWN and its releasing the waiters has its own waiters
  released at once, and the old ending is announced inside the new session (`LinkEndings.EndingOvertaken`); one
  made while the second ending of a cancel is on its way is set DOWN while core goes on with the attempt
  (`LinkEndings.TornDown`). Whatever comes between the actions, the session invariant survives as long as no ending
  sets DOWN a link whose core is not (`LinkEndings.InterleavedKeeps`), and for clients that wait for the
  announcement before they make a link-up every ending is announced in its own session, with the link DOWN and the
  waiters released (`LinkEndings.PatientClients`). `LinkEndings.ToldInSession` and `LinkEndings.TearExact` say the
  same of a single ending.
- An async-down raised while STARTING is refused, but has by then cleared the clocks and the attempt count. Its
  second caller, the hot-cable handling of the media layer, can do this. The session then gets its tries back and
  its attempt clock runs without a total clock (`LinkTheorems.RefundedTry`). The bound on the calls is max(1,
  tries) for each such event plus one (`LinkTheorems.CallsBounded`) and is reached for every number of tries and of
  such events (`LinkTheorems.BoundReached`); the reported attempt time is at most the reported total exactly when
  no attempt clock runs alone (`LinkTheorems.AttemptWithinTotal`).
- The limits are worked out from the fastest technology in the map, except that with BJ_100G and CD_100G and
  nothing faster they are worked out from the slower of the two (`FecLimits.RateFastest`).
- The limit check multiplies the count in 64 bits and is not monotone beyond 2^64 / 1000
  (`FecLimits.LimitCheckNotMonotone`; exact in `FecLimits.LimitCheckExact`). The comment above it writes a strict
  comparison; the code, and the model, use `<=`.
- The link-up path stores a settling sample it does not calculate, so its growth is never reported
  (`FecSampling.SettleSampleMissed`). Nothing is missed exactly when that sample equals the one before it
  (`FecSampling.SettleExact`).
- The down-cause text writes inside its buffer exactly when, with no cause at all, the buffer has five characters,
  and otherwise when some bit is left after masking and the first name with its space fits
  (`MapText.CauseMapMasked`); the information text when no bit is named or the first name fits
  (`MapText.InfoMapStr`); the media error text always (`MapText.ErrorMapStr`). The least sizes the first two accept
  are too short for this (`MapText.StraysHappen`).
- The bit error rate divides by a bit count that is zero for a period of zero and can wrap, to zero or not
  (`FecLimits.BitsCanWrap`); when it divides by zero is exact in `FecLimits.BerCalc`, and the result is the true
  rate exactly when the count did not wrap or the numerator is below what is left of it (`FecLimits.BerExact`).

## Model

| member | source | states |
|---|---|---|
| LinkObjects.CtrlLink.AsyncDown | drivers/net/ethernet/hpe/sl/ctrl/sl_ctrl_link_priv.c:653-722 | refused exactly while STARTING; only a link that is UP moves, to a request or down with the async callback registered; the clocks are cleared whatever the answer |
| LinkObjects.CtrlLink.Up | drivers/net/ethernet/hpe/sl/ctrl/sl_ctrl_link.c:683-750 | takes one step of a run; accepted exactly from DOWN with serdes ready and a configured core, and then core goes up as the configuration says, uncanceled, with its waiters held and its clocks started; which error otherwise, with states, core and announcements as before |
| LinkObjects.CtrlLink.Down | drivers/net/ethernet/hpe/sl/ctrl/sl_ctrl_link.c:752-827 | accepted exactly while a session is on, and then it is stopping in both layers with the down callback registered, canceled if it was starting; otherwise nothing changes, and which error |
| LinkObjects.CtrlLink.ConfigSet | drivers/net/ethernet/hpe/sl/ctrl/sl_ctrl_link.c:344-499 | an allowed and consistent configuration given while DOWN is in force in both layers; anything else changes nothing, and which error |
| LinkObjects.CtrlLink.ClocksGet | drivers/net/ethernet/hpe/sl/ctrl/sl_ctrl_link.c:949-994 | the whole milliseconds of the running or kept clocks; without an async-down while STARTING the attempt is never above the total |
| LinkObjects.CtrlLink.UpSuccess | drivers/net/ethernet/hpe/sl/ctrl/sl_ctrl_link_priv.c:268-296 | UP in both layers and told so; the attempt and total times kept are those since their starts, the up time begins, and every attempt is accounted for |
| LinkObjects.CtrlLink.AttemptFailed | drivers/net/ethernet/hpe/sl/ctrl/sl_ctrl_link_priv.c:298-417 | retried exactly when it should be, with core going up as configured; otherwise UP_FAIL is told, or an error when core refused the retry; the causes kept, the clocks reset, the waiters released and every attempt accounted for |
| LinkObjects.CtrlLink.CancelReported | drivers/net/ethernet/hpe/sl/core/hw/sl_core_hw_link.c:1115-1203 | a canceled attempt is never retried: DOWN, waiters released, UP_FAIL told with the causes of the attempt, with the down callback still to come |
| LinkObjects.CtrlLink.CancelTail | drivers/net/ethernet/hpe/sl/core/hw/sl_core_hw_link.c:1200-1208 | a second ending, counted, exactly when core is still DOWN, and nothing to the control layer otherwise |
| LinkObjects.CtrlLink.DownDone | drivers/net/ethernet/hpe/sl/ctrl/sl_ctrl_link_priv.c:561-651 | DOWN with the waiters released, the announcement the command asked for, and the counters of a down and of a cancel |
| LinkObjects.CtrlLink.FaultStart | drivers/net/ethernet/hpe/sl/ctrl/sl_ctrl_link_priv.c:443-463 | both layers on their way down and nobody told yet |
| LinkObjects.CtrlLink.FaultDone | drivers/net/ethernet/hpe/sl/ctrl/sl_ctrl_link_priv.c:465-520 | DOWN with cleared clocks, the waiters released, ASYNC_DOWN told and the fault counted |
| LinkSession.StepKeeps | drivers/net/ethernet/hpe/sl/ctrl/sl_ctrl_link.c:683-827 | every step of LinkSession keeps the coupling of the layers, the attempt balance, the session account, the bound on tries and the order of the clocks; LinkLateFault adds a fault served during a commanded down |
| LinkTheorems.Reachable | drivers/net/ethernet/hpe/sl/ctrl/sl_ctrl_link_priv.c:268-417 | in every run of these steps the layers stay coupled, and LINK_UP_CMD + LINK_UP_RETRY = LINK_UP + LINK_UP_FAIL + attempts core refused + 1 if one is out |
| LinkTheorems.UpAccepted | drivers/net/ethernet/hpe/sl/core/sl_core_link.c:31-76 | in every run, exactly when a link-up is accepted by both layers, and that core then goes up as the configuration in force says; a refused one leaves the states as they were and announces nothing |
| LinkTheorems.UpAnswered | drivers/net/ethernet/hpe/sl/ctrl/sl_ctrl_link.c:650-750 | in every run, which error a link-up is told, and what it leaves of clocks and counters |
| LinkTheorems.DownAnswered | drivers/net/ethernet/hpe/sl/ctrl/sl_ctrl_link.c:752-827 | in every run, which error a down or async-down is told, and which callback an accepted one registers with core |
| LinkTheorems.ConfigAnswered | drivers/net/ethernet/hpe/sl/ctrl/sl_ctrl_link.c:344-499 | which error a configuration is told; a locked one says Ok and changes nothing |
| LinkTheorems.CoreAnswers | drivers/net/ethernet/hpe/sl/core/sl_core_link.c:31-315 | what core answers to each call in each of its states, and what it leaves |
| LinkTheorems.AcceptedByBoth | drivers/net/ethernet/hpe/sl/core/sl_core_link.c:113-315 | in every run core accepts the downs, cancels, async-downs and configurations the control layer accepts, as long as nothing comes between the two parts of a command; `LinkCommands.RejectedExactly` is for when something does |
| LinkTheorems.UpFailOnce | drivers/net/ethernet/hpe/sl/core/sl_core_link.c:78-111 | in every run a failure report is taken exactly while a session starts or stops, leaves a pending attempt pending, and a second one changes nothing |
| LinkTheorems.NothingStuck | drivers/net/ethernet/hpe/sl/core/hw/sl_core_hw_link.c:1022-1380 | every transient state of the control layer has its core completion enabled, STOPPING ends DOWN and a pending attempt is answered |
| LinkTheorems.SessionEndings | drivers/net/ethernet/hpe/sl/ctrl/sl_ctrl_link_priv.c:268-440 | in every run of these steps: at most one LINK_UP; no ending before the session is over; then one, and a second one exactly when the late callback of a cancel found core DOWN |
| LinkTheorems.CanceledTwice | drivers/net/ethernet/hpe/sl/core/hw/sl_core_hw_link.c:1115-1208 | a canceled attempt announces UP_FAIL and then DOWN |
| LinkTheorems.EndingLeavesDown | drivers/net/ethernet/hpe/sl/ctrl/sl_ctrl_link_priv.c:304-439 | in every run a step that announces an ending leaves the link DOWN with its waiters released, and a link goes DOWN by such a step only |
| LinkTheorems.RetryExactly | drivers/net/ethernet/hpe/sl/ctrl/sl_ctrl_link_priv.c:298-417 | a failed attempt is retried exactly when not canceled, tries remain and its cause has no fatal bit; tries left decrease and core goes up as configured |
| LinkTheorems.FailureToldExactly | drivers/net/ethernet/hpe/sl/ctrl/sl_ctrl_link_priv.c:298-417 | in every run, the ending a failed attempt announces: UP_FAIL exactly when the session does not go on, an error exactly when core refuses the retry, none when it is retried; and the causes kept |
| LinkTheorems.CausesAre | drivers/net/ethernet/hpe/sl/ctrl/sl_ctrl_link_priv.c:21-32 | the bit numbers of the fatal causes and of the tries |
| LinkTheorems.CallbackUnexpected | drivers/net/ethernet/hpe/sl/ctrl/sl_ctrl_link_priv.c:418-440 | a callback with a core state it does not expect: an error ends the session, or nothing changes |
| LinkTheorems.SessionConfig | drivers/net/ethernet/hpe/sl/ctrl/sl_ctrl_link.c:471-492 | the configuration at every state of a session is that of its link-up, until the session is over, and then it stays over until the next link-up |
| LinkTheorems.CallsBounded | drivers/net/ethernet/hpe/sl/ctrl/sl_ctrl_link_priv.c:329-417 | the core link-up calls of a session are at most max(1, tries), tries as configured when it began, for every time the tries were given back, plus one |
| LinkTheorems.BoundReached | drivers/net/ethernet/hpe/sl/ctrl/sl_ctrl_link_priv.c:329-417 | for every number of tries and of async-downs while STARTING a session makes exactly as many calls as the bound allows |
| LinkTheorems.RefundedTry | drivers/net/ethernet/hpe/sl/ctrl/sl_ctrl_link_priv.c:653-722 | one async-down while STARTING: two calls for one try, and an attempt clock running alone |
| LinkTheorems.AttemptWithinTotal | drivers/net/ethernet/hpe/sl/ctrl/sl_ctrl_link.c:949-994 | the reported attempt time stays within the reported total exactly when no attempt clock runs alone |
| LinkTheorems.ClocksOrdered | drivers/net/ethernet/hpe/sl/ctrl/sl_ctrl_link_priv.c:153-212 | so in every run in which no async-down comes while STARTING |
| LinkTheorems.LinkUpBeforeFlush | drivers/net/ethernet/hpe/sl/ctrl/sl_ctrl_link_priv.c:268-440 | in the log of a session LINK_UP comes before any wait for the notification work, and every ending after its own wait |
| LinkReports.CountersTold | drivers/net/ethernet/hpe/sl/ctrl/sl_ctrl_link_priv.c:298-417 | in every run LINK_UP counts the LINK_UP notifications, LINK_DOWN those of either down, and LINK_UP_FAIL the retries and the UP_FAIL notifications |
| LinkReports.UpTimes | drivers/net/ethernet/hpe/sl/ctrl/sl_ctrl_link.c:949-994 | a link that came up in a session without async-downs tells, as long as it is UP, the time from its link-up to its coming up, and the time since |
| LinkCommands.PartsTogether | drivers/net/ethernet/hpe/sl/ctrl/sl_ctrl_link.c:138-194 | the two parts of a link-up, down or async-down in a row are the one step of LinkSession, with the same answer |
| LinkCommands.AmongThese | drivers/net/ethernet/hpe/sl/ctrl/sl_ctrl_link.c:683-827 | every run of LinkSession is a run of commands in parts in which nothing is disturbed |
| LinkCommands.SplitKeeps | drivers/net/ethernet/hpe/sl/ctrl/sl_ctrl_link.c:650-827 | whatever comes between the parts, as long as nothing is disturbed: coupling, balance, tries and clocks are kept with a link-up between its parts counted as not begun and a down as made; a link claimed for a down has a call to come that core accepts |
| LinkCommands.RejectedExactly | drivers/net/ethernet/hpe/sl/core/sl_core_link.c:113-203 | of a command no link-up has crossed: a cancel is rejected exactly when core is UP or the link DOWN by then, the down of a link that was UP exactly when it is DOWN; what either answer leaves |
| LinkCommands.UncoupledExactly | drivers/net/ethernet/hpe/sl/ctrl/sl_ctrl_link.c:773-802 | which moves part the layers, and that a call does so only when a link-up has crossed its command |
| LinkCommands.PoliteCallers | drivers/net/ethernet/hpe/sl/ctrl/sl_ctrl_link.c:683-827 | nothing is disturbed when link-ups let other commands and a canceled session finish and downs let a link-up finish |
| LinkCommands.DownRejected | drivers/net/ethernet/hpe/sl/core/sl_core_link.c:149-155 | the run in which an accepted down is rejected by core and the link stays UP |
| LinkCommands.LinkUpGoesOn | drivers/net/ethernet/hpe/sl/ctrl/sl_ctrl_link.c:650-681 | a down claimed while a link-up is between its parts is rejected, and the link-up goes on with the cancel forgotten |
| LinkCommands.CancelAstray | drivers/net/ethernet/hpe/sl/core/sl_core_link.c:136-148 | a down whose session is over when it calls core cancels the attempt of the next session |
| LinkEndings.OpenedFinishes | drivers/net/ethernet/hpe/sl/ctrl/sl_ctrl_link_priv.c:304-439 | the four actions of an ending in a row are the one step of LinkSession |
| LinkEndings.InterleavedKeeps | drivers/net/ethernet/hpe/sl/ctrl/sl_ctrl_link_priv.c:304-439 | with anything between the actions, as long as none sets DOWN a link whose core is not: coupling, balance, tries and clocks are kept with the endings on their way counted as made, and a stopping link with core DOWN has an ending to set it DOWN |
| LinkEndings.ToldInSession | drivers/net/ethernet/hpe/sl/ctrl/sl_ctrl_link_priv.c:484-519 | an ending is announced in its own session, DOWN and released, exactly when no link-up found the link DOWN since it began |
| LinkEndings.ReleasedEarly | drivers/net/ethernet/hpe/sl/ctrl/sl_ctrl_link_priv.c:437-439 | waiters are found released while the link is not DOWN only after an early release, which takes a link-up since the ending began |
| LinkEndings.TearExact | drivers/net/ethernet/hpe/sl/ctrl/sl_ctrl_link_priv.c:574-595 | setting the state DOWN keeps the layers coupled exactly when core is DOWN or the state is already |
| LinkEndings.PatientClients | drivers/net/ethernet/hpe/sl/ctrl/sl_ctrl_link_priv.c:304-439 | for clients that wait for the announcement nothing is torn, released early or told in another session |
| LinkEndings.EndingOvertaken | drivers/net/ethernet/hpe/sl/ctrl/sl_ctrl_link.c:650-665 | a link-up between two actions: its waiters are released while it starts and the old ending is told inside it |
| LinkEndings.TornDown | drivers/net/ethernet/hpe/sl/core/hw/sl_core_hw_link.c:1200-1208 | a link-up during the second ending of a cancel is set DOWN while core goes on |
| LinkLateFault.LateFaultsKeep | drivers/net/ethernet/hpe/sl/core/hw/sl_core_hw_link.c:1553-1623 | with faults served during commanded downs coupling, balance, tries and clocks are kept as long as late down works end while the link is DOWN |
| LinkLateFault.WaitingCallers | drivers/net/ethernet/hpe/sl/core/hw/sl_core_hw_link.c:1301-1380 | that is so when no link-up is made while a down work is late |
| LinkLateFault.LateLookExact | drivers/net/ethernet/hpe/sl/core/hw/sl_core_hw_link.c:1301-1325 | a late down work that looks at the state goes on exactly when a fault or a failed attempt of the next session is on its way |
| LinkLateFault.LateDownExact | drivers/net/ethernet/hpe/sl/core/hw/sl_core_hw_link.c:1301-1380 | a late down work announces an ending whatever it finds; it uncouples the layers exactly when work was queued and loses an attempt exactly when one was pending |
| LinkLateFault.LateSessionEndings | drivers/net/ethernet/hpe/sl/core/hw/sl_core_hw_link.c:1553-1623 | then a session announces at most one LINK_UP, no ending before it is over, and over, one ending, one more for each late callback of a cancel in the run that found core DOWN, of which there is at most one, and one more for each late down work in the run |
| LinkLateFault.FaultAndDownTold | drivers/net/ethernet/hpe/sl/core/hw/sl_core_hw_link.c:1529-1623 | a session that announces ASYNC_DOWN and then DOWN |
| LinkLateFault.AttemptLost | drivers/net/ethernet/hpe/sl/core/hw/sl_core_hw_link.c:1301-1380 | a link-up between the two whose attempt is neither up nor failed |
| NotifRegistry.NotifGroup.WaitIdle | drivers/net/ethernet/hpe/sl/ctrl/sl_ctrl_lgrp_notif.c:54-63 | ten looks; gives up only if all saw a pass on |
| NotifRegistry.NotifGroup.CallbackReg | drivers/net/ethernet/hpe/sl/ctrl/sl_ctrl_lgrp_notif.c:31-109 | the first free slot takes the client's callback, types and tag, with the media layer asked for each media type of the client, or the exact error with the registry untouched |
| NotifRegistry.NotifGroup.CallbackUnreg | drivers/net/ethernet/hpe/sl/ctrl/sl_ctrl_lgrp_notif.c:111-171 | the media layer forgets what it announced; the first slot with this callback and these types is cleared, or the exact error |
| NotifRegistry.NotifGroup.Enqueue | drivers/net/ethernet/hpe/sl/ctrl/sl_ctrl_lgrp_notif.c:173-215 | at the end of the queue behind what others put meanwhile; ENOSPC exactly when found full, EFAULT exactly when filled between the look and the put |
| NotifRegistry.NotifGroup.HandOut | drivers/net/ethernet/hpe/sl/ctrl/sl_ctrl_lgrp_notif.c:242-246 | one call to every slot that asks for the type, in slot order |
| NotifRegistry.NotifGroup.NotifWork | drivers/net/ethernet/hpe/sl/ctrl/sl_ctrl_lgrp_notif.c:217-256 | one run drains the queue in order |
| NotifRegistry.EditsOne | drivers/net/ethernet/hpe/sl/ctrl/sl_ctrl_lgrp_notif.c:72-163 | which slot an edit touches and what it holds then; refused exactly when every slot asks for something |
| NotifRegistry.UnregisterUndoes | drivers/net/ethernet/hpe/sl/ctrl/sl_ctrl_lgrp_notif.c:72-163 | unregistering undoes the registration just made exactly when no earlier slot holds the same pair |
| NotifRegistry.RegisteredHears | drivers/net/ethernet/hpe/sl/ctrl/sl_ctrl_lgrp_notif.c:72-79 | a client that has registered is called with its own tag, once, for every message of a type it asked for and no other, and nobody else's calls change |
| NotifRegistry.SendsExactly | drivers/net/ethernet/hpe/sl/ctrl/sl_ctrl_lgrp_notif.c:88-101 | the media layer is asked each question once, in order, exactly when its bit is among the types |
| NotifRegistry.HandedExactly | drivers/net/ethernet/hpe/sl/ctrl/sl_ctrl_lgrp_notif.c:242-246 | handing out reaches every slot that asks, no other, none twice, in order |
| NotifProtocol.StepKeeps | drivers/net/ethernet/hpe/sl/ctrl/sl_ctrl_lgrp_notif.c:173-256 | every interleaved step keeps the frozen registry, the order of messages, the calls made and the wake-up |
| NotifProtocol.ExactlyOnceInOrder | drivers/net/ethernet/hpe/sl/ctrl/sl_ctrl_lgrp_notif.c:217-256 | in every run the accepted messages are handed out, in hand or queued, in order, and the calls made are exactly those due |
| NotifProtocol.CalledAsAsked | drivers/net/ethernet/hpe/sl/ctrl/sl_ctrl_lgrp_notif.c:217-256 | every call of a run goes to a callback with the tag that one registration of the run gave it, which asked for a type of the message |
| NotifProtocol.EditsTake | drivers/net/ethernet/hpe/sl/ctrl/sl_ctrl_lgrp_notif.c:65-163 | in every run an edit between passes does what it is for, and during a pass nothing |
| NotifProtocol.GoneIsSilent | drivers/net/ethernet/hpe/sl/ctrl/sl_ctrl_lgrp_notif.c:146-158 | a callback with no slot left is not called again until it is registered anew |
| NotifProtocol.FullTurnsAway | drivers/net/ethernet/hpe/sl/ctrl/sl_ctrl_lgrp_notif.c:185-211 | a full queue turns a producer away before or at its put; otherwise the message is last in the queue |
| NotifProtocol.RegistryFrozen | drivers/net/ethernet/hpe/sl/ctrl/sl_ctrl_lgrp_notif.c:65-80 | no step changes the registry during a pass |
| NotifProtocol.NoLostWakeup | drivers/net/ethernet/hpe/sl/ctrl/sl_ctrl_lgrp_notif.c:204-256 | a non-empty queue always has the work pending, a look still to come, or a producer about to queue the work |
| NotifProtocol.NullNeverCalled | drivers/net/ethernet/hpe/sl/sl_lgrp.c:207-243 | in every run no call goes to a NULL callback |
| NotifProtocol.DrainsFromAnywhere | drivers/net/ethernet/hpe/sl/ctrl/sl_ctrl_lgrp_notif.c:217-256 | from any reachable state with no producer at work the work item hands out everything accepted and comes to rest |
| NotifFlush.FlushHandsOut | drivers/net/ethernet/hpe/sl/ctrl/sl_ctrl_lgrp_notif.c:204-256 | for any number of threads that wait for the work: when a wait is over, every message whose producer had queued the work before the wait began is handed out |
| NotifFlush.FlushReturns | drivers/net/ethernet/hpe/sl/ctrl/sl_ctrl_lgrp_notif.c:217-256 | from any reachable state the work item alone brings every wait to its end |
| NotifFlush.NotYetQueued | drivers/net/ethernet/hpe/sl/ctrl/sl_ctrl_lgrp_notif.c:204-213 | a message put whose producer has not yet queued the work is not waited for |
| NotifFlush.LinkUpHandedOut | drivers/net/ethernet/hpe/sl/ctrl/sl_ctrl_link_priv.c:427-439 | LINK_UP of a session is handed out once the wait of its ending is over, so before the ending is announced |
| FecMonitor.Quiescence | drivers/net/ethernet/hpe/sl/ctrl/sl_ctrl_link_fec_priv.c:384-490 | after a stop and its cancel no sample is stored and no check runs until a new start, under every interleaving |
| FecMonitor.StoppedRunsDown | drivers/net/ethernet/hpe/sl/ctrl/sl_ctrl_link_fec_priv.c:384-490 | and without a recovery the timer and the work take at most 22 more steps |
| FecMonitor.KeepsGoing | drivers/net/ethernet/hpe/sl/ctrl/sl_ctrl_link_fec_priv.c:384-457 | armed, with a period and no stop on its way, the monitor goes on under every interleaving until it is stopped, loses its period or finds a limit crossed |
| FecMonitor.SamplesAgain | drivers/net/ethernet/hpe/sl/ctrl/sl_ctrl_link_fec_priv.c:384-466 | and from any such state its timer and work alone store one more sample and check it, within fifteen steps |
| FecMonitor.CrossedEnds | drivers/net/ethernet/hpe/sl/ctrl/sl_ctrl_link_fec_priv.c:433-437 | a pass that finds a limit crossed does not arm the timer again |
| FecMonitor.ZeroStartStops | drivers/net/ethernet/hpe/sl/ctrl/sl_ctrl_link_fec_priv.c:173-182 | a start that finds no period stops the monitor instead |
| FecMonitor.NoPeriodRunsDown | drivers/net/ethernet/hpe/sl/ctrl/sl_ctrl_link_fec_priv.c:397-404 | without a period the monitor comes to rest within seventeen steps though nobody stops it |
| FecMonitor.StaleTimer | drivers/net/ethernet/hpe/sl/ctrl/sl_ctrl_link_fec_priv.c:406-457 | though a stopped monitor may still have its timer running, and re-arm it during a recovery |
| FecSampling.FecData.DataStore | drivers/net/ethernet/hpe/sl/ctrl/sl_ctrl_link_fec_priv.c:26-47 | the pointers trade places; the current buffer holds the new sample and the other the one before |
| FecSampling.FecData.DataCalc | drivers/net/ethernet/hpe/sl/ctrl/sl_ctrl_link_fec_priv.c:193-227 | every counter, lane and bin reports its difference modulo 2^64, and the totals reported agree with the history |
| FecSampling.FecData.Monitor | drivers/net/ethernet/hpe/sl/ctrl/sl_ctrl_link_fec_priv.c:429-431 | a pass reports the growth since the sample before, and the time since |
| FecSampling.NothingLost | drivers/net/ethernet/hpe/sl/ctrl/sl_ctrl_link_fec_priv.c:193-216 | for any order of stores and calculations, reported plus missed is the last sample modulo 2^64 |
| FecSampling.DeltasAddUp | drivers/net/ethernet/hpe/sl/ctrl/sl_ctrl_link_fec_priv.c:193-216 | the deltas of monitor passes add up to the growth since any earlier point |
| FecSampling.SettleSampleMissed | drivers/net/ethernet/hpe/sl/core/hw/sl_core_hw_link.c:915-967 | the settling sample of a link-up is stored without being reported |
| FecSampling.SettleExact | drivers/net/ethernet/hpe/sl/core/hw/sl_core_hw_link.c:915-967 | the reports after a settling sample miss nothing exactly when it equals the sample before it |
| FecLimits.LimitCheckExact | drivers/net/ethernet/hpe/sl/ctrl/sl_ctrl_link_fec_priv.h:20-33 | for every limit, negative ones too, when the wrapping check agrees with the rate comparison it stands for |
| FecLimits.LimitCheckMonotone | drivers/net/ethernet/hpe/sl/ctrl/sl_ctrl_link_fec_priv.h:28-29 | monotone in the count as long as nothing wraps |
| FecLimits.LimitCheckNotMonotone | drivers/net/ethernet/hpe/sl/ctrl/sl_ctrl_link_fec_priv.h:28-29 | and not beyond |
| FecLimits.RateFastest | drivers/net/ethernet/hpe/sl/ctrl/sl_ctrl_link_fec_priv.c:508-523 | the rate is that of the fastest technology, unless BJ_100G and CD_100G are there and nothing faster |
| FecLimits.LimitCalc | drivers/net/ethernet/hpe/sl/ctrl/sl_ctrl_link_fec_priv.c:492-536 | dividing step by step gives the one quotient, saturated |
| FecLimits.ProductFits | drivers/net/ethernet/hpe/sl/ctrl/sl_ctrl_link_fec_priv.c:508-525 | the product is exact for the mantissas in use and far larger ones |
| FecLimits.ProductWraps | drivers/net/ethernet/hpe/sl/ctrl/sl_ctrl_link_fec_priv.c:508-525 | and too low for one that is too large |
| FecLimits.Checker.LimitsCalc | drivers/net/ethernet/hpe/sl/ctrl/sl_ctrl_link_fec_priv.c:95-165 | the five monitor settings are the policy's or the exact quotients of the rate |
| FecLimits.InUseByRate | drivers/net/ethernet/hpe/sl/ctrl/sl_ctrl_link_fec_priv.c:95-165 | the limits of a policy that leaves all to the driver, by the rate |
| FecLimits.InUseSane | drivers/net/ethernet/hpe/sl/ctrl/sl_ctrl_link_fec_priv.c:95-165 | no limit is negative and the calculated UCW warning is below the calculated UCW down limit |
| FecLimits.Checker.UcwChance | drivers/net/ethernet/hpe/sl/ctrl/sl_ctrl_link_fec_priv.c:251-264 | the counter never holds more than three, and trips at three |
| FecLimits.Checker.CcwChance | drivers/net/ethernet/hpe/sl/ctrl/sl_ctrl_link_fec_priv.c:266-279 | the same for corrected codewords |
| FecLimits.Checker.DataCheck | drivers/net/ethernet/hpe/sl/ctrl/sl_ctrl_link_fec_priv.c:281-382 | the verdict and result are what the whole history of checks calls for; a check that brings nothing down tells each crossed warning that has not been told, in order |
| FecLimits.Checker.WarnCheck | drivers/net/ethernet/hpe/sl/ctrl/sl_ctrl_link_fec_priv.c:339-380 | each warning is told at most once between link-ups, exactly when its limit is crossed and it has not been |
| FecLimits.DownOnThird | drivers/net/ethernet/hpe/sl/ctrl/sl_ctrl_link_fec_priv.c:311-323 | down for UCW exactly on every third over-limit sample in a row |
| FecLimits.DownOnThirdCcw | drivers/net/ethernet/hpe/sl/ctrl/sl_ctrl_link_fec_priv.c:325-337 | down for CCW the same way, over the checks in which UCW did not trip |
| FecLimits.UcwSamplesAre | drivers/net/ethernet/hpe/sl/ctrl/sl_ctrl_link_fec_priv.c:311-323 | the UCW rule sees every check |
| FecLimits.Normalise | drivers/net/ethernet/hpe/sl/ctrl/sl_ctrl_link_fec.c:147-158 | mant below 1000, two digits once scaled, and mant * 10^mag <= num / den < (mant + 1) * 10^mag |
| FecLimits.NormalUnique | drivers/net/ethernet/hpe/sl/ctrl/sl_ctrl_link_fec.c:147-158 | this determines the result |
| FecLimits.GuardExact | drivers/net/ethernet/hpe/sl/ctrl/sl_ctrl_link_fec.c:103-104 | a count passes its guard exactly when its numerator does not wrap |
| FecLimits.BerCalc | drivers/net/ethernet/hpe/sl/ctrl/sl_ctrl_link_fec.c:106-177 | exactly when the input is invalid, when the division is by zero, and otherwise both rates: mant * 10^exp is count * hz over the bits, to its last digit, with at least two digits once scaled |
| FecLimits.BerExact | drivers/net/ethernet/hpe/sl/ctrl/sl_ctrl_link_fec.c:144-171 | the rate is the true one exactly when the bit count did not wrap or the numerator is below its rest |
| FecLimits.BitsCanWrap | drivers/net/ethernet/hpe/sl/ctrl/sl_ctrl_link_fec.c:144-148 | counts that pass every guard and still make the divisor zero, or the rate wrong |
| MediaLanes.SwapMovesLanes | drivers/net/ethernet/hpe/sl/media/sl_media_jack.c:26-36 | every view of lane i becomes that of lane i + 4 modulo 8 |
| MediaLanes.SwapTwice | drivers/net/ethernet/hpe/sl/media/sl_media_jack.c:575-594 | the swap is its own inverse |
| MediaLanes.Buffer.Swap | drivers/net/ethernet/hpe/sl/media/sl_media_jack.c:575-594 | the swap in place |
| MediaLanes.Jack.LaneDataRead | drivers/net/ethernet/hpe/sl/media/sl_media_jack.c:600-665 | takes one sample from the bus, swapped if asked, when all three bus reads succeed; otherwise the buffer is left alone |
| MediaLanes.AnsweredAs | drivers/net/ethernet/hpe/sl/media/sl_media_jack.c:612-633 | which bus read fills which map |
| MediaLanes.StatesPacked | drivers/net/ethernet/hpe/sl/media/sl_media_jack.c:31-36 | a byte holds the states of an even lane and the odd one after it |
| MediaLanes.ValidExactly | drivers/net/ethernet/hpe/sl/media/sl_media_jack.c:38-44 | usable: no lane asked for changed, and each of four is in a state from activated to initialized |
| MediaLanes.Jack.IsLaneDataValid | drivers/net/ethernet/hpe/sl/media/sl_media_jack.c:667-695 | no requested lane changed state and those the ASIC has are in an allowed one |
| MediaLanes.Jack.LaneDataGet | drivers/net/ethernet/hpe/sl/media/sl_media_jack.c:741-833 | at most five samples taken from the bus; which answer, and the OR of which of them, for every bus; the cache changes on success only |
| MediaLanes.Jack.Accumulate | drivers/net/ethernet/hpe/sl/media/sl_media_jack.c:792-823 | the polling loop of the above: at most three more samples |
| MediaLanes.AnswerCount | drivers/net/ethernet/hpe/sl/media/sl_media_jack.c:741-823 | two samples suffice only when every bit is set, and unstable means five were taken |
| MediaLanes.AnswersUnique | drivers/net/ethernet/hpe/sl/media/sl_media_jack.c:741-833 | the reads decide the answer and their number |
| MediaLanes.AnswerBits | drivers/net/ethernet/hpe/sl/media/sl_media_jack.c:804-812 | a loss is shown exactly when some sample after the first showed it, and the last sample added none |
| MediaLanes.AnswerSwapped | drivers/net/ethernet/hpe/sl/media/sl_media_jack.c:638-640 | swapping every read is swapping the accumulated answer |
| CableDb.Sheet.RowsCount | scripts/cable_list_parser_and_db_creator.py:19-30 | counts the rows before the first without a part number, and the heading |
| CableDb.Sheet.PartNumsGet | scripts/cable_list_parser_and_db_creator.py:33-53 | the numbers of the rows not ignored, or ValueError |
| CableDb.Sheet.Find | scripts/cable_list_parser_and_db_creator.py:57-80 | the unbounded walk down the sheet to the first row left with the number |
| CableDb.Sheet.CableInfoWrite | scripts/cable_list_parser_and_db_creator.py:57-247 | one row written and deleted for each number of the list, ending at a cell the generator does not know |
| CableDb.Convert | scripts/cable_list_parser_and_db_creator.py:249-285 | both sheets: numbers collected from both, then each sorted and written |
| CableDb.SearchFinds | scripts/cable_list_parser_and_db_creator.py:59-80 | the search finds the first row left with its number before it leaves the data |
| CableDb.WriteSorts | scripts/cable_list_parser_and_db_creator.py:57-249 | searching and deleting by sorted number writes the rows in stable order and leaves the others in place |
| CableDb.StableSort | scripts/cable_list_parser_and_db_creator.py:249-256 | the table is the stable sort of the rows not ignored, each once |
| CableDb.FailsExactly | scripts/cable_list_parser_and_db_creator.py:50-247 | the conversion of a sheet fails exactly when a row to be written has no digits in its number or an unknown cell |
| CableDb.BothConverted | scripts/cable_list_parser_and_db_creator.py:249-285 | the run completes exactly when each sheet converts, and the table is one stable sort after the other |
| CableText.StripIsMark | scripts/cable_list_parser_and_db_creator.py:40-48 | a cell is a question mark when nothing but white space is around one |
| CableText.NumberReads | scripts/cable_list_parser_and_db_creator.py:49-53 | the number read from a part number is the one its digits show, whatever letters stand around them; a number written is read back |
| CableText.TextFailsExactly | scripts/cable_list_parser_and_db_creator.py:33-247 | a sheet of text fails exactly when a listed row has no digit in its part number or a cell the generator does not know |
| CableText.TableOfText | scripts/cable_list_parser_and_db_creator.py:33-249 | otherwise its table is the rows above the first without a part number that are no kit and no question mark, each once, by number and then by place |
| CableDb.OrderUnique | scripts/cable_list_parser_and_db_creator.py:249-256 | there is only one such order |
| MapText.Fill | drivers/net/ethernet/hpe/sl/sl_link.c:437-569 | the longest list of names that fits, the last one dotted if names are missing; stray exactly when the first does not fit |
| MapText.CauseMapMasked | drivers/net/ethernet/hpe/sl/sl_link.c:415-575 | when the text is refused, when a write would leave the buffer, and what the buffer holds otherwise |
| MapText.CauseMapStr | drivers/net/ethernet/hpe/sl/sl_link.c:577-581 | the same without the information bits |
| MapText.CauseMapWithInfoStr | drivers/net/ethernet/hpe/sl/sl_link.c:583-587 | the same with them |
| MapText.InfoMapStr | drivers/net/ethernet/hpe/sl/core/sl_core_str.c:66-105 | the same for the 38 information bits |
| MapText.ErrorMapStr | drivers/net/ethernet/hpe/sl/media/sl_media_jack.c:975-1039 | for media errors no write ever leaves the buffer |
| MapText.LongEnough | drivers/net/ethernet/hpe/sl/sl_link.c:437-569 | with twenty characters or more the first name always fits |
| MapText.StraysHappen | drivers/net/ethernet/hpe/sl/sl_link.c:425-435 | a masked-out map leaves no name, and the least sizes do not hold even a short one |
| MapText.TextReadsBack | drivers/net/ethernet/hpe/sl/sl_link.c:562-574 | the text ends at its first NUL and its words, read back, are the names of the set bits, or the leading ones with the last three characters dots |
| MapText.CausesReadBack | drivers/net/ethernet/hpe/sl/sl_link.c:437-569 | a cause text with every cause named and none cut off tells exactly which causes there are |
| MapText.InfosReadBack | drivers/net/ethernet/hpe/sl/core/sl_core_str.c:66-105 | the same for link information |
| MapText.ErrorsReadBack | drivers/net/ethernet/hpe/sl/media/sl_media_jack.c:975-1039 | the same for media errors |

## Left out

- LinkSession.StepKeeps: a fault served during a commanded down is not one of its steps; `LinkLateFault` adds it.
- LinkTheorems.SessionEndings: for runs without a fault served during a commanded down; `LinkLateFault.LateSessionEndings` is for those with.
- LinkTheorems.AcceptedByBoth: for commands whose two parts follow each other; `LinkCommands` is for those with something between.
- LinkCommands.SplitKeeps: the second part of a link-up, which resets the cancel mark and the clocks before it calls core, is one step, as is setting a configuration, and what a caller finds after its command has disturbed another is shown by runs only.
- LinkEndings.InterleavedKeeps: the four actions of an ending are apart, but what a callback does before them is one step, the state UP and the enqueue of LINK_UP among it; a command between a core state change and the callback after it is not modelled, nor are endings apart together with commands apart or late faults.
- NotifFlush.LinkUpHandedOut: for a LINK_UP the queue took; how the calls of one link follow each other is stated by `NotifFlush.Carries`.
- LinkTheorems.EndingLeavesDown: the log records the attempt to enqueue a notification; a full queue only logs a warning there and the link state does not depend on it.
- NotifRegistry.NotifGroup.Enqueue: the kfifo is a bounded queue of whole messages; how its byte capacity rounds is not modelled.
- NotifRegistry.NotifGroup.CallbackReg: the callback refusal, done one layer up in sl_lgrp.c, is part of this method; what the media layer sends when asked is not part of this model.
- FecSampling.FecData.DataCalc: the conversion of jiffies to milliseconds is the kernel's and any function here.
- FecLimits.ProductFits: no equivalence is given for mantissas that wrap; the two in use are 1 and 2.
- FecLimits.Checker.DataCheck: the event counters, the copying of the data outside its lock and the enqueueing of the warnings.
- MediaLanes.Jack.LaneDataGet: the waiting threads and the age of the cache.
- CableText.StripIsMark: the white space is that of Latin-1.
- CableDb.Sheet.CableInfoWrite: the text written for a row and the length conversion through floating point; a row carries what is written as one value, absent when some cell is unknown to the generator.
- MapText.Fill: the branch for a negative snprintf result, which the kernel's snprintf never gives for these formats.
- Reset, the auto-negotiation probe that moves core to AN without the control layer, release and reference counting.
- Event counters are unbounded, and cause and type maps are sets of bit numbers.
- LLR and MAC machines, sysfs, logging, hardware access and the kernel's own work queues, timers and completions, whose contracts are taken as documented.
- The cached FEC counters at link up and link down.
