# Wrap, verified

Wrap shares one tmux window with browsers. A worker process owns a helper tmux session, a local
server behind a tunnel, and one viewer per browser; command-line tools find, rename, kill and clean up
workers; a page in the browser keeps an encrypted connection alive. This project models the protocols
whose safety rests on locks, versions, leases, guards and counters spread over several files, and
proves what they promise over every run.

Check it with `dafny verify dfyconfig.toml` (Dafny 4.11).

## How it is organised

| files | what they hold |
|---|---|
| `MirrorManager`, `MirrorSystem`, `MirrorOutcomes` | the manager's critical sections as a class against specification functions; the machine of manager, local servers, client queues and viewers; what its operations achieve |
| `Cipher`, `OutboundQueue`, `OutputChannel` | the sealed channel under an adversary; the bounded queue and chunking; the bytes of one viewer after another, end to end |
| `MirrorOutput` | the manager's machine and one client's output channel, joined: what the manager's gate guarantees about what the browser shows |
| `TmuxCommand`, `TmuxFormat` | the command and guard printers, each against a reference reader |
| `TmuxWindow`, `TmuxPinArgs`, `WindowEffects`, `WindowPins` | an interpreter for printed window commands and the hooks they fire; the pin and restore vectors; what they do to a window; reference-counted pinning against an adversarial host |
| `WindowOutcomes` | how each answer to a claim, a release and a clean-up goes on, and that a pin and its release undo each other |
| `WindowLeftovers`, `SizingHooks` | what a lost rollback leaves behind, exactly; what host hooks that size the window do to a pin and its restore, exactly |
| `ViewerPreparation`, `PinnedViewers`, `ViewerGeometry` | releasing a pin once; viewers and pins together; converging on the captured geometry |
| `WorkerLease`, `WorkerSystem`, `WorkerOutcomes` | one worker's deferred cleanups; workers, tools and launchers sharing records and leases; a worker's whole life and the two ways a kill succeeds |
| `RecordStore`, `ArtifactPruning`, `InstanceName` | selectors, retention and names |
| `BrowserPage`, `BrowserConnection`, `BrowserOutcomes` | the page's handlers as a class; sockets, timers and promise chains as a machine; which frames and events end the page and which reconnect it |
| `Options`, `Decimals`, `Ordering`, `Paths` | helpers: options, decimal text, byte order and insertion, base names of paths |

State that the program updates in place is a class with the same fields. Each method is proved equal to
a function of the old state, and the machines are built from the same functions, so a result about runs
is a result about those methods. Safety alone would be met by operations that do nothing, so each operation
also has an outcome law, in its own `ensures` and in lemmas over the machines, that says in plain terms when it
succeeds, what then holds and how each failure ends. A machine step is a critical section, or a single external effect such
as one tmux command, one socket event or one promise continuation. Rotation is split further: bumping
the secret version, closing each queue, and detaching the clients are separate steps, with servers and
queues moving in between.

Network, exec and timers appear as choices: any of them may fail, and a command may take effect and
lose its reply. AES-GCM is an ideal cipher, and derived keys are opaque values. In tmux formats the
reader covers what Wrap prints (comparison, conjunction, variables and options, escapes).

Facts about the code that the proofs make precise:

- A window that no viewer holds bears a trace of Wrap exactly when some claim on it took hold and its
  rollback never reached tmux (`WindowLeftovers.TraceMeansLeftBehind`, `LeftBehindExactly`). `pinWindow`
  then forgets the owner and hook index, so nothing retries it, and the hooks left behind make a later
  pin and its successful restore keep Wrap's size too (`LostRollbackLeaves`, `LaterRestoreIsVoid`).
- Wrap can overrule or undo a host whose own hooks size the window. A hook that answers the setting of
  options runs inside a pin, and the pin's resize overwrites its size unless another hook answers resizes.
  A hook that answers resizes has the last word on a pin, which still succeeds; but if it sets "manual" and
  nothing answers the unsetting, the later restore takes the host's size for Wrap's and removes it. With such
  hooks the host keeps what it set exactly when the first kind comes with the second, and the second, if it
  sets "manual", with the first (`SizingHooks.HostHooksDecide`, `SizingHooks.HostKeptExactly`). The results
  about whole runs of pins let the host's harmless hooks come and go freely, and Wrap never touches them.
- A guard on an option whose name the format reader would not read back whole cannot be right, whatever
  is printed; for every other name it is exact (`TmuxFormat.KillGuardNeedsReadable`).
- In the page, a continuation that fails after its connection closed by itself sets `stopped`, so the
  reconnect that was already scheduled comes to nothing; after `reconnectNow` it does not
  (`BrowserConnection.ReplacedIsInert`, `BrowserConnection.LateFailureStops`).
- Rename refuses another record's ID as a name, but a record may be renamed to its own ID; selectors
  stay unambiguous all the same (`RecordStore.ResolveIsSound`).

## Model

| member | source | states |
|---|---|---|
| MirrorSystem.RotationCutOff | internal/mirror/manager.go:334-351 | once a rotation has left its locked section, no client registered under an older secret version is opening or active in any later state, its input finds no viewer and no output is queued for it |
| MirrorSystem.StaleForever | internal/mirror/server.go:195-207 | a client whose credential is older than its server's stays so in every later state |
| MirrorSystem.StaleIsOut | internal/mirror/server.go:332-340 | such a client is in neither map, and input lookup and output push are impossible for it |
| MirrorSystem.ViewerOwnership | internal/mirror/manager.go:404-586 | opening and active are disjoint and inside clients, clients exist only when Ready and not shut down, and every running viewer is held by a pending open, an entry, or a cleanup that will close it |
| MirrorSystem.StartConserves | internal/mirror/manager.go:190-310 | every server and tunnel is owned by the manager or a start in progress and was never closed, or has been closed exactly once; whenever the manager is not Ready everything is cleared |
| MirrorSystem.ShutdownIsFinal | internal/mirror/manager.go:376-402 | after shutdown was asked for a manager that is not Ready, no later start becomes Ready |
| MirrorSystem.OutputNeverResumes | internal/mirror/manager.go:554-567 | the output gate of one opening, once shut after its reservation, never opens again |
| MirrorSystem.RunKeepsInv | internal/mirror/manager.go:448-476 | the joint invariant of manager, servers, queues, opens and viewers holds in every reachable state |
| MirrorOutcomes.PairingIsCurrent | internal/mirror/manager.go:334-351 | in every run, whenever the manager is Ready and no rotation is inside its section, its secret is the one its own server admits, its address is its tunnel's, and pairing URL and QR code are those of that secret |
| MirrorOutcomes.OnlyCommitsShow | internal/mirror/manager.go:278-304 | what the host shows changes only by a commit, to that startup's server, tunnel, secret, URL and QR code, or by a rotation, to the new secret, URL and QR code with everything else as it was |
| MirrorOutcomes.RotationFinishes | internal/mirror/manager.go:312-374 | a rotation begun on a Ready manager can always finish; then the new secret is in force on the same server under the next version, its pairing is shown, every client of the server has been closed, and every viewer will be |
| MirrorOutcomes.StartSucceeds | internal/mirror/manager.go:190-310 | a start whose server and tunnel came up and which nothing cancels ends Ready, showing what it made |
| MirrorOutcomes.StartUnwinds | internal/mirror/manager.go:278-291 | a start found cancelled at its commit, or by a shutdown, closes its server and tunnel once and ends Stopped or Failed as told |
| MirrorOutcomes.StartFails | internal/mirror/manager.go:596-609 | a start whose server or tunnel failed closes what it obtained and ends Failed with its message |
| MirrorOutcomes.RegisterSucceeds | internal/mirror/server.go:282-340 | a handshake captures its server's present version and registers under it |
| MirrorOutcomes.ConnectSucceeds | internal/mirror/manager.go:404-420 | a registered connection is admitted by a Ready manager and may ask for a viewer |
| MirrorOutcomes.OpenSucceeds | internal/mirror/manager.go:448-517 | an undisturbed open makes the started viewer the client's active one, with input and output allowed |
| MirrorOutcomes.InputReachesOwnViewer | internal/mirror/manager.go:544-552 | in every run a client's input goes to its active viewer, one that its own open call started, and nobody else's |
| MirrorOutcomes.ClientLosesViewer | internal/mirror/manager.go:521-586 | a close, a disconnect or the viewer's end takes the viewer out, and it will be closed unless it ended by itself |
| MirrorOutcomes.ShutdownCloses | internal/mirror/manager.go:376-402 | a shutdown closes server and tunnel exactly once, every client and every viewer, and ends Stopped |
| MirrorOutcomes.TunnelExitCloses | internal/mirror/manager.go:617-638 | the exit of the manager's own tunnel closes the same and ends Failed with its message; another tunnel's exit changes nothing |
| MirrorManager.Manager.Begin | internal/mirror/manager.go:196-220 | the section that admits or refuses a start; like every section below it keeps clients consistent and the manager complete or cleared |
| MirrorManager.Manager.Commit | internal/mirror/manager.go:278-304 | a start becomes Ready with its server, tunnel and pairing, unless cancelled or shut down |
| MirrorManager.Manager.Fail | internal/mirror/manager.go:596-609 | a failed start ends Stopped when cancelled and Failed with its message otherwise |
| MirrorManager.Manager.RequestShutdown | internal/mirror/manager.go:376-402 | shutdown is recorded and a start in progress is marked cancelled |
| MirrorManager.Manager.DetachClientsLocked | internal/mirror/manager.go:714-729 | both maps and the clients are emptied and exactly the viewers they held are returned |
| MirrorManager.Manager.ClearLocked | internal/mirror/manager.go:683-704 | server, tunnel, secret, URLs and QR are cleared and handed to the cleanup with the clients and viewers |
| MirrorManager.Manager.ShutdownLocked | internal/mirror/manager.go:376-402 | shutdown clears once, and a second one does nothing |
| MirrorManager.Manager.TunnelExited | internal/mirror/manager.go:617-638 | only the current tunnel's exit fails the manager |
| MirrorManager.Manager.CommitRotation | internal/mirror/manager.go:342-351 | secret, pairing URL and QR become the arguments; server, tunnel, public URL and phase stay; no client or viewer is left and exactly the viewers held are handed back |
| MirrorManager.Manager.Connected | internal/mirror/manager.go:404-411 | a client is admitted exactly when Ready and not shut down |
| MirrorManager.Manager.ReserveOpening | internal/mirror/manager.go:448-476 | the opening is reserved only for a connected client with no viewer, and undone when Ready cannot be queued |
| MirrorManager.Manager.RemoveOpeningEntry | internal/mirror/manager.go:588-594 | an opening is removed only by its own open call |
| MirrorManager.Manager.AttachViewer | internal/mirror/manager.go:484-491 | a started viewer is attached only while its opening still owns the entry |
| MirrorManager.Manager.ActivateViewer | internal/mirror/manager.go:492-515 | the viewer becomes active only for a connected client of a Ready manager, and leaves opening either way |
| MirrorManager.Manager.CloseClient | internal/mirror/manager.go:521-542 | the client's viewer is removed from both maps and handed back to be closed |
| MirrorManager.Manager.Disconnected | internal/mirror/manager.go:569-586 | the client and its entries go, and its viewers are handed back |
| MirrorManager.Manager.ViewerExited | internal/mirror/manager.go:640-658 | only the client's current viewer clears its active entry |
| Cipher.CounterNonceInjective | internal/mirror/cipher.go:127-131 | distinct 64-bit counters give distinct nonces |
| Cipher.NonceSpellsCounter | internal/mirror/cipher.go:127-131 | a nonce is four zero bytes and then the counter, the most significant byte first |
| Cipher.Sealer.SealFrame | internal/mirror/cipher.go:70-88 | sealing succeeds exactly on a healthy end below the counter limit for a frame in size, and numbers it; any failure poisons and leaves the counter |
| Cipher.Opener.OpenFrame | internal/mirror/cipher.go:90-113 | opening accepts exactly an acceptable value on a healthy end below the counter limit; any failure poisons and leaves the counter |
| Cipher.SealsExactly | internal/mirror/cipher.go:70-88 | when sealing succeeds, what it yields, and that every failure poisons |
| Cipher.OpensExactly | internal/mirror/cipher.go:90-113 | opening succeeds exactly for a value in size, sealed under that key and the nonce of that counter, with a tag, on a healthy end below the limit; every failure poisons and leaves the counter |
| Cipher.AcceptedIsNext | internal/mirror/cipher.go:90-113 | whatever the adversary feeds, an accepted frame is the next one sealed under that key |
| Cipher.ChannelIntegrity | internal/mirror/cipher.go:70-113 | in every run the accepted frames are a prefix of the sealed ones, for each key |
| Cipher.NoncesNeverRepeat | internal/mirror/cipher.go:42-52 | no key and nonce are used together twice |
| Cipher.PoisonIsPermanent | internal/mirror/cipher.go:70-113 | a poisoned sealer never seals again and a poisoned opener never accepts again |
| Cipher.WrongFeedSilences | internal/mirror/cipher.go:90-113 | in every run, once an opener has been fed anything but its sealer's next frame, it accepts nothing ever again |
| Cipher.FailedSealSilences | internal/mirror/cipher.go:70-88 | in every run, once a sealer has been asked for an oversized frame or past its last counter, it seals nothing ever again |
| Cipher.InOrderDelivery | internal/mirror/cipher.go:70-113 | ends in step deliver what is sealed, below the counter and size limits |
| OutboundQueue.ClientQueue.PushFrame | internal/mirror/client.go:39-58 | a frame is queued exactly when the queue is open and the queued sizes, its payload and 17 bytes stay within the bound; otherwise it is refused as closed or closes the queue as full |
| OutboundQueue.ClientQueue.PopFrame | internal/mirror/client.go:60-82 | the oldest frame leaves, and its bytes with it |
| OutboundQueue.ClientQueue.CloseLocked | internal/mirror/client.go:90-107 | closing tells every queued sender the close error, once, and empties the queue |
| OutboundQueue.ClientQueue.CloseNow | internal/mirror/client.go:295-302 | the client is closed once, and a queue already closed keeps its error |
| OutboundQueue.ClientQueue.SendOutput | internal/mirror/client.go:199-232 | output is queued chunk by chunk until the context is found cancelled or a chunk is refused, which closes the client |
| OutboundQueue.PushAcceptsExactly | internal/mirror/client.go:39-58 | when a frame is accepted, which error each refusal gives, and what is left of the queue |
| OutboundQueue.PopTakesExactly | internal/mirror/client.go:60-82 | a frame leaves exactly when the queue is open and holds one: the oldest |
| OutboundQueue.SendsExactly | internal/mirror/client.go:199-232 | output is sent exactly when nothing cancels it before its last chunk and, the queue being open, all its chunks fit together; which error a refusal gives |
| OutboundQueue.AllOrClosed | internal/mirror/client.go:199-232 | output enters the queue whole and in order, or up to the cancellation, or the queue is closed |
| OutboundQueue.ChunkOutput | internal/mirror/protocol.go:167-179 | the loop computes the chunks of the data |
| OutboundQueue.ChunksConcat | internal/mirror/protocol.go:167-179 | the chunks concatenate to the data |
| OutboundQueue.ChunksAreFull | internal/mirror/protocol.go:167-179 | every chunk but the last is full |
| OutboundQueue.PushKeepsAccount | internal/mirror/client.go:39-58 | the byte count is the sum over queued frames and within the bound |
| OutputChannel.OutputIsPrefix | internal/mirror/client.go:269-293 | what the peer accepts between the n-th Ready and the next is a prefix of what the n-th viewer emitted, and there is no output before the first, through reopening, overflow, closing, writer failures and an adversary on the wire |
| MirrorOutput.ScreensFollowOpenings | internal/mirror/manager.go:554-567 | in every run of the manager with a client's channel, what the peer accepts after the n-th Ready is a prefix of what the viewer of the n-th opening emitted, no opening is announced twice, and nothing is shown before the first |
| MirrorOutput.RefinesPipe | internal/mirror/manager.go:465-476 | what the channel takes for granted of its viewers (only the newest emits, and none after it stopped) is enforced by the manager's gate, so each step of the whole is one of the channel's |
| MirrorOutput.RefinesMirror | internal/mirror/client.go:219-232 | each step of the whole is one of the manager's machine, followed at most by the closing of the client's queue |
| MirrorOutput.OnlyNewestAllowed | internal/mirror/manager.go:448-476 | an open gate belongs to the opening last announced |
| MirrorOutput.ChunksPassTheGate | internal/mirror/manager.go:559-566 | every chunk the queue accepts passes the gate of the newest opening at that moment, since the lock is held until the last chunk |
| MirrorOutput.RotationSilences | internal/mirror/manager.go:334-351 | once a rotation has given up the manager lock, not one more frame enters the queue of a client registered before it |
| OutputChannel.NeverTooLong | internal/mirror/protocol.go:167-179 | the sealer never refuses a frame for its size |
| OutputChannel.QueueAccounting | internal/mirror/client.go:39-82 | in every run the byte count is exact and within the bound |
| OutputChannel.OutcomesAreUnique | internal/mirror/client.go:245-293 | every result channel gets at most one value |
| OutputChannel.WriteTells | internal/mirror/client.go:269-293 | the writer tells delivered exactly when the frame was sealed and written |
| OutputChannel.OutcomesAreHonest | internal/mirror/client.go:245-293 | in every run a sender told delivered had exactly its own frame sealed for the wire, and one told of a failure finds the queue closed |
| OutputChannel.OutputArrives | internal/mirror/client.go:199-293 | with nothing lost before, what the newest viewer emits is queued, taken, sealed, fed to the peer and shown, all of it |
| OutputChannel.EveryoneIsTold | internal/mirror/client.go:84-107 | once the queue is closed and nothing is in flight, exactly the result channels of accepted frames have been told, each once |
| OutputChannel.ClosingAbsorbs | internal/mirror/client.go:84-107 | a closed queue stays closed and empty and accepts nothing more |
| OutputChannel.RefusalsReachEveryone | internal/mirror/client.go:90-107 | every sender still waiting at a close gets the close error, in order |
| TmuxCommand.IsBareTmuxCommandArg | internal/tmux/tmux.go:982-996 | the loop decides which arguments need no quotes |
| TmuxCommand.UnquotedExactly | internal/tmux/tmux.go:966-996 | which arguments are printed without quotes, character by character |
| TmuxCommand.TmuxCommand | internal/tmux/tmux.go:966-980 | the loop prints an argument list |
| TmuxCommand.PrintReadRoundTrip | internal/tmux/tmux.go:966-980 | reading a printed command gives back its arguments, whatever they hold |
| TmuxCommand.ScriptReadRoundTrip | internal/tmux/tmux.go:801-801 | commands joined with semicolons split back into the same commands |
| TmuxCommand.PrintInjective | internal/tmux/tmux.go:966-980 | different argument lists print differently |
| TmuxCommand.NestedRoundTrip | internal/tmux/tmux.go:783-799 | commands printed as arguments of commands unwrap to the originals at any depth |
| TmuxFormat.EscapeIsCharwise | internal/tmux/tmux.go:920-924 | the three replacements escape each special character once |
| TmuxFormat.EscapeLeavesPlain | internal/tmux/tmux.go:747-758 | generations, window IDs and numbers need no escape |
| TmuxFormat.EscapeRoundTrip | internal/tmux/tmux.go:920-924 | the format reader undoes the escape for every value |
| TmuxFormat.GuardMeansWhatItSays | internal/tmux/tmux.go:346-348 | a printed guard is true exactly when every live value equals the expected one |
| TmuxFormat.KillGuardIsExact | internal/tmux/tmux.go:346-348 | the guard on killing a helper holds exactly for its generation, name and ownership mark, under any option name that is read back whole |
| TmuxFormat.KillGuardNeedsReadable | internal/tmux/tmux.go:340-348 | among all option names exactly those read back whole can be guarded on: for the others some live values get the wrong answer |
| TmuxFormat.ConjunctionHolds | internal/tmux/tmux.go:755-758 | joined conditions hold exactly when all of them do |
| TmuxFormat.JoinConditions | internal/tmux/tmux.go:755-758 | the loop builds the joined condition |
| TmuxWindow.HookRuns | internal/tmux/tmux.go:783-799 | a printed hook clears the mark on a resize or a window-size set, and on nothing else |
| TmuxWindow.PinScriptRuns | internal/tmux/tmux.go:760-801 | the printed claim, mark, resize and hooks, run on a window without local size, have exactly the effect of a pin, whatever harmless hooks the host installed |
| TmuxWindow.PinScriptConflicts | internal/tmux/tmux.go:766-768 | on a locally sized window the claim is refused before anything is touched |
| TmuxWindow.RestoreScriptRuns | internal/tmux/tmux.go:835-856 | the printed restore drops the hooks, the size if still owned and manual, and the mark if still owned |
| TmuxPinArgs.PinWindowSizeIfGenerationArgs | internal/tmux/tmux.go:708-806 | the validations and loops build the specified pin vector, or refuse |
| TmuxPinArgs.RestoreWindowSizeIfGenerationArgs | internal/tmux/tmux.go:812-861 | the validations and loops build the specified restore vector, or refuse |
| TmuxPinArgs.PinRefuses | internal/tmux/tmux.go:717-746 | the captures and owners no pin is ever built for |
| TmuxPinArgs.PinAccepts | internal/tmux/tmux.go:717-746 | well-formed captures are pinned, with or without a claim on the size |
| TmuxPinArgs.RestoreRefuses | internal/tmux/tmux.go:818-832 | the windows, modes and owners no restore is ever built for |
| TmuxPinArgs.PinConditions | internal/tmux/tmux.go:747-754 | the literal conditions are the escaped guards |
| TmuxPinArgs.WatchCommands | internal/tmux/tmux.go:786-800 | each hook name gets its own command |
| TmuxPinArgs.PinVectorRuns | internal/tmux/tmux.go:708-806 | executing the pin vector changes nothing unless the window is exactly the captured one without a local size, and then is a pin |
| TmuxPinArgs.RestoreVectorRuns | internal/tmux/tmux.go:952-959 | executing the restore vector is a restore on the captured server generation and nothing elsewhere |
| WindowEffects.PinIsPrinted | internal/mirror/viewer.go:339-366 | the outcome of the printed pin tells mismatch, conflict and success apart |
| WindowEffects.HostCommandRuns | internal/tmux/tmux.go:783-799 | the host's own set, unset and resize commands, through Wrap's printed hooks, take the mark away |
| WindowEffects.ClaimThenRestore | internal/tmux/tmux.go:760-801 | restoring undoes a claim exactly when no resize hook was armed before; on a clean window nothing at all remains changed |
| WindowPins.HostHooksSurvive | internal/tmux/tmux.go:863-866 | no step of Wrap adds, changes or removes a hook of the host's |
| WindowPins.HostSizesSurvive | internal/mirror/viewer.go:281-381 | in every interleaving no step of Wrap overwrites or removes a window-size the host set, even one equal to Wrap's, while the host's hooks leave the window alone |
| WindowPins.NoTraceWithoutPin | internal/mirror/viewer.go:728-810 | a window nobody holds is free of mark, hooks and size of Wrap's exactly when no claim on it was left standing; untouched by the host its size is then inherited again |
| WindowLeftovers.LeftBehindExactly | internal/mirror/viewer.go:339-351 | the claims left behind on a window grow only by the lost rollback of a claim that took hold, and never shrink while it lives |
| WindowLeftovers.TraceMeansLeftBehind | internal/mirror/viewer.go:339-351 | a window nobody holds bears a trace of Wrap exactly when a claim was left behind on it |
| WindowLeftovers.LostRollbackLeaves | internal/mirror/viewer.go:341-348 | for every window that can be pinned, a run after which nothing holds it and nothing will undo the claim it bears |
| WindowLeftovers.LaterRestoreIsVoid | internal/mirror/viewer.go:728-752 | a run in which a later pin and its successful restore, with no failure, keep Wrap's size on such a window |
| SizingHooks.HostHooksDecide | internal/tmux/tmux.go:760-861 | the whole printed pin and then the whole printed restore, on windows whose host hooks answer options, resizes, both or neither with a size: both succeed, and whose size stands after each is given exactly |
| SizingHooks.HostKeptExactly | internal/tmux/tmux.go:835-856 | the host keeps what such hooks set, through pin and restore, exactly under a condition on the hooks alone; where it fails Wrap overwrites or removes the host's size |
| WindowPins.ReferencesCountHandles | internal/mirror/viewer.go:309-312 | a pin's references are the release functions handed out and not yet called |
| PinnedViewers.ReferencedWhileViewed | internal/mirror/viewer.go:716-752 | a pin is unreferenced exactly when every preparation and viewer built on it is over |
| PinnedViewers.CleanupForgets | internal/mirror/viewer.go:756-777 | a cleanup forgets a pin whose viewers are all over as soon as its restore succeeds, and leaves viewed pins and their windows alone |
| WindowPins.RestoreOnlyAtZero | internal/mirror/viewer.go:728-777 | restores are issued only for unreferenced pins, and a failed one keeps its entry |
| WindowPins.PinsLeaveRestored | internal/mirror/viewer.go:728-777 | a pin leaves the factory only unreferenced and, if it changed the window, only by a successful restore |
| WindowPins.OldReleaseIsHarmless | internal/mirror/viewer.go:716-726 | calling a release function again takes nobody's reference |
| WindowPins.ClaimsArePrinted | internal/mirror/viewer.go:325-339 | every claim in every run is the execution of the printed vector |
| WindowPins.RestoresArePrinted | internal/mirror/viewer.go:779-810 | every restore of a pin in every run is the execution of the printed vector |
| WindowPins.PinFactory.Join | internal/mirror/viewer.go:308-312 | an existing pin gains one reference |
| WindowPins.PinFactory.Record | internal/mirror/viewer.go:370-377 | a successful claim is recorded with one reference |
| WindowPins.PinFactory.ReleaseWindow | internal/mirror/viewer.go:728-752 | a release decrements at most once, asks for a restore at zero, and forgets the pin only when that succeeds |
| WindowPins.PinFactory.Cleanup | internal/mirror/viewer.go:756-777 | exactly the referenced pins and those whose restore failed remain, whatever the order |
| WindowOutcomes.CaptureClaims | internal/mirror/viewer.go:289-322 | a capture of a window without a pin leads to a claim with one attempt fewer left |
| WindowOutcomes.JoinsPin | internal/mirror/viewer.go:309-312 | a capture of a window that has a pin takes one more reference on it and hands out a release function, and nothing else changes |
| WindowOutcomes.ClaimGoesOn | internal/mirror/viewer.go:338-378 | which claim is recorded, captured again or rolled back, for every answer; a claim not taken leaves the windows alone |
| WindowOutcomes.LostClaimGoesOn | internal/mirror/viewer.go:338-354 | a claim that never reached tmux is rolled back if it had something to undo |
| WindowOutcomes.RollbackGoesOn | internal/mirror/viewer.go:341-354 | a rollback that worked goes on to the next attempt if a conflict asked for one, and anything else ends the attempt |
| WindowOutcomes.CallGoesOn | internal/mirror/viewer.go:716-752 | a first call of a release function takes one reference; the last asks for a restore exactly when one is owed, and forgets the pin otherwise |
| WindowOutcomes.RestoreGoesOn | internal/mirror/viewer.go:745-751 | a restore that worked forgets its pin and a failed one keeps it; once delivered it acts on its own window alone |
| WindowOutcomes.CleanupGoesOn | internal/mirror/viewer.go:756-777 | a clean-up visits each pin once, restores those that are owed it and forgets others nobody references |
| WindowOutcomes.PinSucceeds | internal/mirror/viewer.go:281-378 | a window free of Wrap is pinned, undisturbed: manual, marked and watched, with one reference |
| WindowOutcomes.PinAndRelease | internal/mirror/viewer.go:281-378 | pinned and released with nobody in between, the window and the factory's pins are what they were before |
| ViewerPreparation.ReleasesOnce | internal/mirror/viewer.go:152-250 | over every sequence of calls the pin is released at most once, exactly when the preparation or its viewer is over, and never while its terminal stands |
| ViewerPreparation.OverStays | internal/mirror/viewer.go:957-994 | what is over stays over and is never released again |
| ViewerPreparation.Preparation.Start | internal/mirror/viewer.go:152-220 | every failure stops what was started, closes and releases; success hands the release to the viewer |
| ViewerPreparation.Preparation.Close | internal/mirror/viewer.go:242-250 | closing releases only what was neither started nor closed |
| ViewerPreparation.Preparation.RunEnds | internal/mirror/viewer.go:957-994 | the end of the viewer releases its pin |
| ViewerGeometry.VerifyViewerGeometry | internal/mirror/viewer.go:572-632 | at most twice the attempts in queries and one correction; it succeeds exactly when some query within the two bounded phases matches after only quiet ones, and then on the last query |
| ViewerGeometry.SettlesOnce | internal/mirror/viewer.go:548-561 | at most one query can settle an attempt |
| ViewerGeometry.FitsIsHit | internal/mirror/viewer.go:548-561 | a query matches exactly when the client shows that window, ignores its size, and window and status lines together fill the captured geometry |
| WorkerLease.Run | internal/share/service.go:68-200 | every run ends; a lease taken is closed, a helper whose creation succeeded is closed, and the record is removed exactly when it was published and every cleanup succeeded |
| WorkerLease.StopServices | internal/share/service.go:110-180 | control, mirror and helper are stopped in reverse order of their registration, each only if reached |
| WorkerSystem.CleanupIsExclusive | cmd/wrap/commands.go:345-391 | stale cleanup happens only while no worker of the instance is between acquiring and closing the lease |
| WorkerSystem.RecordsLeaveClean | internal/instance/store.go:413-447 | a record leaves the store only by its own worker after clean shutdown or by a tool holding the lease after full cleanup, and its helper is gone; that it does leave is `WorkerOutcomes.RemovesOwnRecord` |
| WorkerSystem.NoOrphanHelper | internal/share/service.go:84-119 | a worker whose stored record is gone has no helper left, through crashes, process ID reuse and concurrent tools |
| WorkerSystem.KillMeansGone | cmd/wrap/commands.go:501-558 | when a kill reports success, after an acknowledged shutdown or after removing a stale record, that worker has left its lease, its record and its helper |
| WorkerSystem.RunKeepsInv | internal/share/process.go:345-355 | the invariant relating leases, records, helpers and process IDs holds in every run |
| WorkerOutcomes.LeaseAndHelper | internal/share/service.go:68-119 | the lease is taken exactly when free and given back exactly by its holder; a helper is there from its creation to its closing |
| WorkerOutcomes.RecordComesAndGoes | internal/instance/store.go:413-447 | a record is stored only where there is none and removed exactly when it bears the given process ID |
| WorkerOutcomes.RemovesOwnRecord | internal/share/service.go:84-102 | a worker's removal is never refused, and after it the store holds no record of that ID for that process, everything else being as it was |
| WorkerOutcomes.RemovedLeavesNothing | internal/share/service.go:84-119 | in every run, after its removal a worker has no record, no helper and no lease |
| WorkerOutcomes.CleanLife | internal/share/service.go:68-200 | a worker nothing ever fails, told to stop, leaves leases, records and helpers exactly as it found them |
| WorkerOutcomes.DeathDropsLease | internal/instance/store.go:43-82 | a crash costs a worker its lease, and its record and helper stay |
| WorkerOutcomes.AskedKillSucceeds | cmd/wrap/commands.go:501-564 | an acknowledged shutdown of any serving worker, wound down, ends in a reported kill with its lease, record and helper gone |
| WorkerOutcomes.StaleKillSucceeds | cmd/wrap/commands.go:504-529 | killing a worker that left its lease takes its record and every helper of the instance away and reports success, whatever state the rest is in |
| WorkerOutcomes.StaleKillGivesUp | cmd/wrap/commands.go:509-527 | where the lease is held, cleaning up fails or the record changed hands, the record stays and no kill is reported |
| WorkerOutcomes.AwaitsBoth | cmd/wrap/commands.go:538-564 | after an acknowledged shutdown success waits for the record and then the lease to go |
| WorkerOutcomes.AskedKillHappens | cmd/wrap/commands.go:501-564 | a run from the empty system in which an asked kill succeeds, for any worker and tool |
| WorkerOutcomes.StaleKillHappens | cmd/wrap/commands.go:504-529 | a run from the empty system in which a worker crashes and killing what it left succeeds, for any worker and tool |
| WorkerOutcomes.QuitDropsLease | cmd/wrap/commands.go:516-527 | a tool that quits or crashes gives up the lease that went with its job, and nothing else |
| WorkerOutcomes.LauncherCleansUp | internal/share/process.go:345-365 | a launcher that reaped its worker cleans up only under the lease, and removes no record |
| RecordStore.Store.ReadAll | internal/instance/store.go:495-535 | the well-placed records by name and then ID, and the files that hold none of their own |
| RecordStore.Store.Create | internal/instance/store.go:269-297 | a record is added exactly when valid, compatible with every other and its file free; the first clash in reading order is reported, and a failed write may leave the record |
| RecordStore.ClashIsExactly | internal/instance/store.go:269-297 | which clash with another record is reported, for every pair of records |
| RecordStore.Store.RenameIfPID | internal/instance/store.go:299-336 | a record is renamed exactly when it has that ID and process and no other record bears the name or ID |
| RecordStore.Store.RemoveIfPID | internal/instance/store.go:413-447 | a record is removed exactly when its file holds it for that ID and process; a file that cannot be read is an error |
| RecordStore.Store.Resolve | internal/instance/store.go:364-395 | the two loops decide which record a selector names, that there is none, or that it is ambiguous |
| RecordStore.ResolveIsSound | internal/instance/store.go:364-395 | in every store state a selector finds a record exactly by its name, its ID, or, failing both, a prefix of its ID alone |
| RecordStore.FindsItsOwn | internal/instance/store.go:364-395 | every record is found by its own name, its own ID, and every prefix of it that is nobody's name or ID and begins no other |
| RecordStore.AmbiguityCounts | internal/instance/store.go:364-395 | a selector is ambiguous exactly when nobody's name or ID and a prefix of several IDs, and the number told is theirs |
| ArtifactPruning.Artifacts.PruneCompletedArtifacts | internal/instance/store.go:134-215 | exactly the unprotected, unheld instances ranked at or after the limit lose their files, whatever the listing order; what cannot be locked or removed stays, spares no other, and is reported, as is a lease that cannot be closed again |
| ArtifactPruning.Artifacts.Collect | internal/instance/store.go:161-196 | the newest modification per instance |
| ArtifactPruning.Artifacts.SortUnprotected | internal/instance/store.go:197-208 | the unprotected candidates, newest first, then by descending ID |
| ArtifactPruning.Artifacts.PruneOne | internal/instance/store.go:227-253 | an instance's files go unless its lease is held or cannot be taken; a file that cannot be removed, and a lease that cannot be closed again, are reported |
| ArtifactPruning.RankIsIndex | internal/instance/store.go:197-208 | the position in sorted order is the number of completed instances that come before |
| ArtifactPruning.AtMostRetained | internal/instance/store.go:134-215 | no more than the limit of unheld completed instances survive |
| ArtifactPruning.OlderGoFirst | internal/instance/store.go:197-208 | where an instance must go, so must every unheld older one, or one as old with a smaller ID |
| ArtifactPruning.FewAllStay | internal/instance/store.go:134-215 | up to the limit of completed instances, nothing goes |
| InstanceName.ValidateName | internal/instance/name.go:15-31 | the checks accept exactly the valid UTF-8 names without outer space or unsafe characters, of at most 64 characters |
| InstanceName.DerivedName | internal/instance/name.go:63-85 | the loop computes the cleaned and trimmed base name, or the window's; it is valid and at most 48 characters, and a short valid base name is kept |
| Paths.BaseOfElement | internal/instance/name.go:64-64 | the base name of a path that ends in an element is that element |
| Paths.BaseIgnoresSlash | internal/instance/name.go:64-64 | slashes at the end do not change the base name |
| Paths.BaseIsOneElement | internal/instance/name.go:64-67 | a base name is one element, or the root, and never empty |
| Paths.BaseOfDot | internal/instance/name.go:64-64 | an element of one dot does not change the base name |
| Paths.BaseOfParent | internal/instance/name.go:64-64 | two dots take back the element before them |
| InstanceName.ChooseName | internal/instance/name.go:33-61 | a requested name is taken exactly when valid and free; otherwise the first free candidate is found by suffix records + 2, never "all", and valid up to 15 digits |
| InstanceName.Pigeonhole | internal/instance/name.go:55-60 | the search cannot go on after more candidates than used names |
| BrowserPage.Browser.PoisonTarget | internal/mirror/assets/wrap-mirror.js:1143-1152 | poisoning happens once, closes the socket, and stops the page unless the connection was replaced; like every handler below it keeps the timer, the current connection and the viewer consistent |
| BrowserPage.Browser.Dial | internal/mirror/assets/wrap-mirror.js:1215-1235 | a socket is opened only with a secret and not when stopped |
| BrowserPage.Browser.Schedule | internal/mirror/assets/wrap-mirror.js:1154-1166 | at most one reconnect is pending, and none when stopped |
| BrowserPage.Browser.OnTimer | internal/mirror/assets/wrap-mirror.js:1162-1165 | the timer is cleared before connecting |
| BrowserPage.Browser.Reconnect | internal/mirror/assets/wrap-mirror.js:1168-1187 | the old connection is superseded and closed, the view is reset, and a new socket opened |
| BrowserPage.Browser.OnClose | internal/mirror/assets/wrap-mirror.js:1241-1261 | only the current connection's closing resets the view and reconnects or, when rejected, forgets the secret |
| BrowserPage.Browser.Queue | internal/mirror/assets/wrap-mirror.js:1001-1014 | a frame is queued only on an open, healthy current connection |
| BrowserPage.Browser.EndSession | internal/mirror/assets/wrap-mirror.js:990-999 | closing a session is asked for once |
| BrowserPage.Browser.OnReady | internal/mirror/assets/wrap-mirror.js:1089-1102 | Ready authenticates once and opens the viewer |
| BrowserPage.Browser.OnOutput | internal/mirror/assets/wrap-mirror.js:1104-1115 | output is written only to an open viewer |
| BrowserPage.Browser.OnTerminalError | internal/mirror/assets/wrap-mirror.js:1016-1024 | a terminal error clears the view and stops when final; one that cannot be read to its end also poisons the connection |
| BrowserPage.Browser.OnShutdown | internal/mirror/assets/wrap-mirror.js:1121-1137 | a shutdown that allows no retry stops the page and forgets the secret, and one that allows it does neither; both close the socket |
| BrowserPage.Browser.OnCloseAcknowledgement | internal/mirror/assets/wrap-mirror.js:1026-1033 | the acknowledgement is accepted only while closing, and stops the page |
| BrowserConnection.PendingMeansOffline | internal/mirror/assets/wrap-mirror.js:1154-1187 | while a reconnect is pending there is no current connection and no viewer |
| BrowserConnection.StoppedForGood | internal/mirror/assets/wrap-mirror.js:1215-1218 | once stopped, or without its secret, the page opens no socket ever again |
| BrowserConnection.ReplacedIsInert | internal/mirror/assets/wrap-mirror.js:1035-1141 | a continuation of another connection changes nothing the user sees, and stops the page exactly when it throws on a connection neither poisoned nor replaced |
| BrowserConnection.SupersededIsOver | internal/mirror/assets/wrap-mirror.js:1168-1187 | from the moment a reconnect replaces it, a connection is never current again and none of its continuations changes the view or stops the page |
| BrowserConnection.ScreenIsCurrent | internal/mirror/assets/wrap-mirror.js:1076-1115 | only the current, healthy connection touches the terminal |
| BrowserConnection.CountersInOrder | internal/mirror/assets/wrap-mirror.js:1006-1013 | frames reach each socket with counters 0, 1, 2, ..., none missing while it is open |
| BrowserConnection.LateFailureStops | internal/mirror/assets/wrap-mirror.js:1143-1152 | a run in which a late failure makes a scheduled reconnect come to nothing |
| BrowserOutcomes.OutputShows | internal/mirror/assets/wrap-mirror.js:1104-1115 | a delivered output frame reaches the screen exactly on an authenticated connection with an open viewer and geometry, is dropped while closing, and is refused otherwise |
| BrowserOutcomes.ReadyOpens | internal/mirror/assets/wrap-mirror.js:1088-1103 | a valid first Ready authenticates and opens the viewer; a second or invalid one is refused |
| BrowserOutcomes.AcknowledgementStops | internal/mirror/assets/wrap-mirror.js:1082-1087 | an empty acknowledgement while closing stops the page and clears the view; any other is refused |
| BrowserOutcomes.ProblemClears | internal/mirror/assets/wrap-mirror.js:1116-1120 | an error clears the view and closes the socket; it stops the page exactly when final or unreadable, and poisons exactly when unreadable |
| BrowserOutcomes.ShutdownDecides | internal/mirror/assets/wrap-mirror.js:1121-1137 | a shutdown closes the socket; it stops the page and takes its secret exactly when it allows no retry |
| BrowserOutcomes.BadFrameRefuses | internal/mirror/assets/wrap-mirror.js:1076-1079 | a frame that fails to decrypt poisons and closes its connection, and stops the page unless that connection was replaced |
| BrowserOutcomes.CloseDecides | internal/mirror/assets/wrap-mirror.js:1241-1261 | the end of the current connection's socket forgets the pairing when rejected and schedules a reconnect otherwise, unless stopped; any other socket's end changes nothing |
| BrowserOutcomes.TimerDials | internal/mirror/assets/wrap-mirror.js:1162-1165 | the reconnect's timer opens a socket exactly with a secret and not when stopped |
| BrowserOutcomes.ReconnectReplaces | internal/mirror/assets/wrap-mirror.js:1168-1187 | a reconnect supersedes and closes the current connection alone, resets the view and opens a new socket |
| BrowserOutcomes.TypeQueues | internal/mirror/assets/wrap-mirror.js:1001-1014 | input is queued exactly on an open, healthy current connection |
| BrowserOutcomes.EndAsksOnce | internal/mirror/assets/wrap-mirror.js:990-999 | ending the session hides the terminal and queues one close frame, once |
| BrowserOutcomes.QueuedGoesOut | internal/mirror/assets/wrap-mirror.js:1006-1013 | a queued frame on a healthy open connection goes out under the next counter |
| BrowserOutcomes.NonceDerives | internal/mirror/assets/wrap-mirror.js:1040-1065 | the server's nonce on a fresh current connection leads to both keys |
| BrowserOutcomes.DrainedGreets | internal/mirror/assets/wrap-mirror.js:1064-1074 | with the send chain drained, the hello is queued and the terminal prepared |
| BrowserOutcomes.FramesThatEnd | internal/mirror/assets/wrap-mirror.js:1076-1141 | exactly which frames stop a running page, and that only a final shutdown takes its secret |
| BrowserOutcomes.EndedForGood | internal/mirror/assets/wrap-mirror.js:1121-1137 | in every run, once such a frame was delivered the page stays stopped and opens no socket, without its secret after a final shutdown |
| BrowserOutcomes.RejectedForGood | internal/mirror/assets/wrap-mirror.js:1250-1256 | in every run a rejecting close of the current connection stops the page and takes its secret for good |
| BrowserOutcomes.RetryReconnects | internal/mirror/assets/wrap-mirror.js:1121-1166 | a shutdown that allows a retry, or an error that is not final, and the close that follows schedule a reconnect whose timer opens a new current socket |

## Left out

- The client's `viewerOpen` flag: a choice in `MirrorSystem`, which admits more runs than the flag does.
- Host, origin and handshake authentication: choices; the secret version captured and checked again is modelled.
- Events, snapshots, diagnostics and cleanup warnings: no order between them and state changes is claimed.
- The context that `start` creates and its cancellation: whether it was cancelled is a choice where the code tests it.
- Code whose steps interleave with others' (the servers, `pinWindow`'s retries, the tools' loops over records, the page's promise chains) is modelled on values, step by step, rather than as one method.
- Key derivation, base64, JSON, QR codes, WebSocket framing and PTYs.
- tmux style sequences, single-letter format aliases and modifiers Wrap never prints.
- TmuxWindow.PinScriptRuns: a queue runs without the host in between, so a claim that fails between its first command and its last hook is not covered; host hooks that change the window are not either, of which `SizingHooks` covers those that size it, both scripts in full.
- TmuxWindow.RestoreScriptRuns: the same two limits.
- TmuxPinArgs.PinVectorRuns: the same two limits.
- TmuxPinArgs.RestoreVectorRuns: the same two limits.
- WindowEffects.PinIsPrinted: the same two limits.
- WindowEffects.HostCommandRuns: the same limit on host hooks.
- WindowPins.HostSizesSurvive: one factory per window and unused hook indices, which are 31 random bits in the program; the host does not write Wrap's own mark or unset its hooks; with host hooks that size the window it fails, and `SizingHooks.HostKeptExactly` says for which.
- SizingHooks.HostHooksDecide: hooks that answer one event with different modes, whose order of running then matters, and hooks that change anything but the size are not covered.
- MirrorOutput.ScreensFollowOpenings: a viewer may emit from the moment its opening is announced, which admits more runs than starting its process does.
- Restoring a pin on a locally sized window: the program never pins one, and its vector is built but not executed here.
- The session and window an attached viewer shows, and the parsing of tmux output into captures and client geometries.
- The lease file as a file: acquiring is one step, and the window between opening a lease file and locking it, while pruning unlinks it, is below this model.
- Control sockets: whether a worker answers is a choice; so is everything its helper's validation may find.
- Unicode's printable and space classes: predicates, of which only what the names rely on is assumed.
- Deadlines and real time: a timeout is one more way a step may fail.
- Command-line parsing, doctor, control socket plumbing, tail buffers, version checks, layout, touch, clipboard and scaling in the page.
