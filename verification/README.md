# Meemaw: a verified model of the wallet protocol

Meemaw keeps a user's Ethereum key split between a server and the user's devices; any device together
with the server can sign, and a registered device can admit a new one. The threshold cryptography comes
from the `getamis/alice` library, which is not part of this model. What is modelled is everything the
repository builds around it, in four parts.

**The protocols.** `AddDevice*.dfy` is the four-process protocol that adds a device (two devices, two
handlers, two websockets, eight channels of capacity one, one shared adder): a step relation with a
program counter for every main thread, reader and sender, the closing of a connection when its process
returns, and faults that freeze a thread, fail a library, or end a main thread early. `AddDeviceStages.dfy`
runs it into a stage that drops, `AddDeviceErrors.dfy` into an error after the commit, `AddDeviceFailures.dfy`
into what a device returns when something fails, `AddDeviceEarlyReturns.dfy` to every place where a process can
return early, and `AddDeviceRogue.dfy` against devices that write whatever they like. `Dkg*.dfy` is the two-process key generation in the same style.

**Routing.** `PeerManager.dfy` is the outgoing queue as a class, and its laws under any interleaving.
`StarRouting.dfy` is the star of queues and websockets through which the three parties of an addition
exchange messages.

**The wallet over its lifetime.** `Wallet.dfy`, `AddService.dfy`, `SignerService.dfy`, `Database.dfy` and
`Vault.dfy` hold the operations: converting, filtering and merging wallets, starting the services, the
statements over the three tables, the sealed record. Each loop or update is a method proved against a function; `WalletLifetime.dfy` composes those
functions into runs of many users, each with one key generation and any number of additions, and
`WalletInvariant.dfy` and `WalletTheorems.dfy` prove what every run keeps. `AcceptHandler.dfy` is the commit
as the handler performs it, and `AdditionOfWallet.dfy` runs the add-device protocol on reachable wallets. `Decimal.dfy` is the text form
of integers that the records use.

**The arithmetic.** `Interpolation.dfy` and `Recovery.dfy` are key recovery, `Ecdsa.dfy`, `Signature.dfy`,
`RecoveryId.dfy` and `Signer.dfy` the 65-byte signature: low-S (EIP-2), verification and public key
recovery (sections 4.1.4 and 4.1.6 of SEC 1 version 2.0), over `ModularArithmetic.dfy`, `Bytes.dfy` and
`Curve.dfy`.

## What is assumed

Assumptions are preconditions of the theorems, never axioms.

- *Add-share library, as a protocol* (`TssLibrary.Contract`): each party follows a script of sends and
  receives; some order plays all scripts to their end; each old peer waits for a message from each other
  party, and for one that the new peer produces after its own last receive. Scripts that
  meet this exist (`OneRoundAddShare.OneRoundMeetsContract`). The last condition is there because the new device answers the metadata message
  without looking at its own TSS state (client/tss_add.go:230-248).
- *The wallets of an addition* (`AddDevice.Params`): `local` is the wallet AcceptDevice was called with,
  `retrieve` gives the record a metadata text opens, and `merged` what the accepting handler stores for a new
  device. The protocol is proved for any such functions;
  `AdditionOfWallet` takes those of a reachable wallet. That the metadata opens the record
  (`AddDevice.Readable`) is assumed by progress only, and there it is proved of reachable wallets; the safety
  theorems also cover the runs in which it does not and the register handler's reader gives up
  (server/tss_add.go:177-187).
- *Closed connections*: a process that returns, early or not, closes its connection, so the other side's
  reader may see a normal or an abrupt end once it has read what was sent. A failed write is taken as an
  error that `ProcessErrors` passes on. Where a main thread can return early is `AddDevice.CanQuit`
  (`AddDeviceEarlyReturns.HandlersReturnEarlyIff`, `AddDeviceEarlyReturns.DevicesReturnEarlyIff`).
- *Add-share library, as a computation* (`AddServices.OldPeerResult`, `AddServices.NewPeerResult`): old
  peers keep share and key and learn the new parameter; the new peer receives the value, at its own
  coordinate, of the line through the two old shares.
- *Key generation* (`WalletLifetime.Premise`): shares of one line modulo the group order, coordinates
  distinct and not zero, rank 0, a key that is not zero.
- *Interpolation coefficients* (`KeyRecovery.Birkhoff.Valid`): for two parties of rank 0 they are the
  Lagrange coefficients (met by `KeyRecovery.LagrangeLibraryIsValid`). That these recover the key is proved.
- *Curve* (`Curves.Curve.Valid`): prime order, opposite points share x and differ in the parity of y, x and
  that parity fix the point. A curve of eleven points over the field of 17 elements meets this
  (`Curves.SmallCurveIsValid`, `Curves.SmallTablesAreOnCurve`). Points are represented by their scalars;
  addresses are an uninterpreted function.
- *Encryption, JSON and hex* (`Vaults.Cipher.Valid`): pairs that undo each other, for the three key sizes of
  AES. Functions that meet this exist (`CipherWitness.PlainCipherIsValid`). Keys, nonces of 12 bytes,
  identifiers and coordinates drawn at random are parameters of the actions.
- Key generations of one user do not overlap, a user runs one addition at a time, and peer ids are
  distinct, fresh and different from "server". No index of the schema enforces this.

## Where the code falls short of its intent

- Key generation can hang with the wallet already stored, exactly when the server's side of the library can
  finish while the client still waits for a message (`DkgHang.AlwaysReturnsIff`): the client answers the
  metadata without having finished, and the answer stops the server's sender (server/tss_dkg.go:171-175,
  utils/ws/ws.go:44-50). The user can then neither generate a new key nor add a device
  (`WalletTheorems.UnclaimedWalletIsFinal`). A round in which both sides send and then wait can be completed by
  the library and hangs in the program (`DkgHang.SymmetricRoundCanHang`).
- `Dkg` and RegisterDevice can return an error although the wallet or the device is stored: the handler's own
  return cancels its context, the reader of a client that is still computing reports the abrupt close, and the
  client returns it. Without any fault some run does this to RegisterDevice exactly when the metadata opens the
  record (`AddDeviceErrors.RegisterDeviceFailsIff`), and to `Dkg` exactly when the library can finish at all
  (`DkgErrors.CanLoseShareIff`). AcceptDevice returns such an error only after its handler has returned early
  (`AddDeviceFailures.AcceptDeviceFailsIff`).
- When a device's own library fails, RegisterDevice and AcceptDevice return neither an error nor a wallet, so
  that the caller cannot tell (client/tss_add.go:288-294, client/tss_add.go:559-564;
  `AddDeviceFailures.EmptyReturnIff`). `Dkg` has the same branch (client/client.go:230-236).
- With the nonce point's x at or above the order a valid signature is refused, or leaves with an id that
  recovers another key (`RecoveryIds.RefusedAboveOrder`, `RecoveryIds.NonceAboveOrderLeavesUnusable`). Below the
  order one more family of valid signatures is refused because the error of recovery id 0 is kept although
  id 1 is right (`RecoveryIds.RefusedExactlyWhen`).
- In RegisterDeviceHandler the stage can drop from 40 to 30: some run does it if and only if the server's
  library may fail and the metadata opens the record (`AddDeviceStages.StageDropsIff`).
- A message put without a target is lost as soon as something takes for the empty id, and never comes back
  (`Queues.NothingLostExactlyWhen`).
- A merge rejects exactly when the stored share is not written canonically (`AddServices.MergesIffCanonical`);
  stored shares always are (`WalletTheorems.CommitSucceeds`).
- The statement that stores a new wallet checks nothing itself; the guard in the handler is what keeps one
  wallet per user (`Vaults.OneWalletAfterDkgIff`).

## Single steps

A few lemmas state one step in every state, reachable or not, so that the theorems about runs rest on the steps
of the code: what each reader does with a late or unexpected frame (`AddDeviceRogue.RegisterFilters` and its three
neighbours), that the star's moves are the calls of a peer manager (`StarRouting.DeviceQueueMoves`,
`StarRouting.ServerQueueMoves`, `StarRouting.HandleConsumesOrRequeues`), that a side of key generation that has
returned only lets its sender stop (`DkgErrors.ReturnedSideIsQuiet`), that a failed commit ends the session and
changes nothing else (`WalletTheorems.FailureEndsSession`), what the register handler reads
(`AdditionOfWallet.ReadMeansStarted`), and how recovery treats numbers out of range and the header byte
(`RecoveryIds.OutOfRangeIsRefused`, `RecoveryIds.HeaderNamesId`).

## Model

| member | source | states |
|---|---|---|
| `AddDeviceTermination.EveryFaultFreeRunReturns` | server/tss_add.go:105-355 | Every fault-free run, connections closed by a return included, has a bounded number of steps, and one that cannot continue has all four processes returned if and only if the metadata opens the record. |
| `AddDeviceProgress.Progress` | server/tss_add.go:419-658 | Deadlock freedom: with a readable wallet, in every state that meets the invariant, has no failed library and no thread stopped but by its own return or a closed connection, and in which some process has not returned, a step other than a fault is possible. |
| `AddDeviceTermination.StepWorks` | client/tss_add.go:97-326 | Every step of any thread or of the library, except a fault, strictly lowers a measure over scripts, queues, wires and program counters. |
| `AddDeviceTermination.RunsAreBounded` | client/tss_add.go:409-613 | The number of steps of a fault-free run is at most the measure of the initial state. |
| `AddDeviceTermination.NoThreadIsLeft` | utils/ws/ws.go:44-50 | When such a run of a readable wallet cannot continue, every reader and every sender has stopped too. |
| `AddDeviceSteps.StepKeepsInv` | server/tss_add.go:132-286 | The protocol invariant survives every action of every thread, of the library, and every fault. |
| `AddDeviceSteps.RunKeepsInv` | server/tss_add.go:449-571 | The invariant holds after every run, failing runs included. |
| `AddDeviceSafety.RegisterDeviceReturnsAfterCommit` | server/tss_add.go:601-657 | If RegisterDevice passes its wait, the vault holds exactly one new peer, this device under the existing metadata; the existing device has answered, the metadata was acknowledged and is the one AcceptDevice supplied; all libraries finished. |
| `AddDeviceSafety.AcceptDeviceReturnsAfterCommit` | client/tss_add.go:509-596 | If AcceptDevice passes its wait, the same commit and both answers have happened before. |
| `AddDeviceSafety.SessionAgreement` | server/tss_add.go:171-222 | Once any library is started all four processes agree on the two peer ids and the metadata, the handlers hold one adder working on the record the metadata opens, the new device's adder starts from that record's key text and whole parameter map, the existing device's from its own key text, share and map, and a library that runs has its adder. |
| `AddDeviceSafety.ChannelDiscipline` | server/tss_add.go:79-86 | In every run each inter-handler channel carries at most one value and never blocks its sender, no done channel is closed twice, no TSS message meets a missing adder. |
| `AddDeviceSafety.PanicsExactlyWhen` | client/tss_add.go:249-262 | Whatever the state, a step panics if and only if it closes a done channel that is closed or uses an adder that does not exist; by the row above no run does. |
| `AddDeviceSafety.TssArrivesInOrder` | utils/tss/serviceAdd.go:16-41 | Inside the protocol too, what a party has handled from another is a prefix of what was sent, and relays happen at most once. |
| `AddDeviceSafety.StagesGrowExactlyWhen` | server/tss_add.go:231-312 | A step lowers a stage if and only if the register handler's reader writes 30 after its main thread wrote 40, which implies a failed server library. |
| `AddDeviceSafety.StagesNeverDecrease` | server/tss_add.go:499-503 | Without a failure of the server's library no stage ever decreases. |
| `AddDeviceStages.StageDropsIff` | server/tss_add.go:281-312 | Some run lowers a stage if and only if the server's library may fail and the metadata opens the record. |
| `AddDeviceStages.StageDrops` | server/tss_add.go:227-312 | The run that does: connect, exchange ids, metadata and adder, start both handlers, fail the library, and let the register reader set its stage last. |
| `AddDeviceRogue.SessionIsFixed` | server/tss_add.go:132-286 | Whatever frames the two devices forge, in every run: once a handler has reached stage 30 it stays there and its ids, metadata and adder never change. |
| `AddDeviceRogue.CommitsAtMostOnce` | server/tss_add.go:575-616 | Whatever the devices write, a run that does not panic adds at most one peer, with the peer id, the metadata and the wallet of the handler's own session. |
| `AddDeviceErrors.DeviceFailsExactlyWhen` | client/tss_add.go:98-122 | In every run, faults included, RegisterDevice and AcceptDevice return a connection error if and only if their main thread looks for errors after their reader or sender has met the closed connection. |
| `AddDeviceErrors.StoppedExactlyWhen` | utils/ws/ws.go:43-101 | In every run a thread has stopped if and only if its process returned, a fault stopped it, or it met the closed connection; a library has failed and a main thread returned early only where the run says so. |
| `AddDeviceErrors.RegisterDeviceFailsIff` | client/tss_add.go:98-122 | Without any fault some run ends with RegisterDevice returning a connection error if and only if the metadata opens the record. |
| `AddDeviceErrors.RegisterDeviceFailsAfterCommit` | client/tss_add.go:304-318 | In every run in which its handler does not itself return early, other failures included, RegisterDevice returns such an error only after the device is committed exactly once, both devices have answered and the handler is back. |
| `AddDeviceErrors.RegisterDeviceCanFail` | server/tss_add.go:350-355 | For every library and every readable wallet some fault-free run commits the device and returns the error. |
| `AddDeviceFailures.AcceptDeviceFailsIff` | server/tss_add.go:587-631 | Some run, failing ones included, ends with AcceptDevice returning an error its reader or sender has reported if and only if its handler may return early and the metadata opens the record. |
| `AddDeviceFailures.RegisterDeviceFailsUncommittedIff` | server/tss_add.go:302-310 | RegisterDevice can return such an error with nothing committed if and only if its own handler may return early, likewise. |
| `AddDeviceFailures.EmptyReturnIff` | client/tss_add.go:286-293 | A device can return neither an error nor a wallet, with nothing committed, if and only if its own library may fail and the metadata opens the record. |
| `AddDeviceEarlyReturns.HandlersReturnEarlyIff` | server/tss_add.go:577-657 | The exact places where the two handlers can return before their end: each is reached in some run of a readable wallet, and no other is. |
| `AddDeviceEarlyReturns.DevicesReturnEarlyIff` | client/tss_add.go:52-95 | The same for the two devices: while connecting, while their library has failed, and for AcceptDevice while it reports. |
| `AddDeviceEarlyReturns.ClosedConnectionIsMet` | client/tss_add.go:98-122 | A device whose handler has returned early can meet the closed connection while its library runs, while it reports, and while it waits. |
| `TssLibrary.OldPeersFinishAfterNew` | client/tss_add.go:230-248 | An old peer that has finished proves that the new peer needs no further message. |
| `TssLibrary.FinishedHeardEveryone` | utils/tss/serviceAdd.go:116-136 | A finished old peer has consumed a message from each other party. |
| `TssLibrary.StuckMeansFinished` | utils/tss/serviceAdd.go:192-221 | Scripts that some order plays to the end cannot get stuck in any order. |
| `PeerManagers.PeerManager.GetNextMessageToSendAll` | utils/tss/peerManager.go:85-112 | Takes the head of the queue unless the queue is empty or the head cannot be marshalled, and then leaves the queue unchanged. |
| `PeerManagers.PeerManager.GetNextMessageToSendPeer` | utils/tss/peerManager.go:116-148 | For a non-empty id takes the oldest message of that peer and leaves every other in place; an error leaves the queue unchanged; for the empty id every message for it is dropped. |
| `PeerManagers.AdderGenericHandle` | utils/tss/serviceAdd.go:16-41 | A decodable message is given to the handler exactly when it names the party, and queued for its target otherwise; an undecodable one changes nothing. |
| `Queues.EachPeerDrainsInOrder` | utils/tss/peerManager.go:123-147 | For every non-empty id, under any interleaving of any calls, what was sent to that peer is what it has drained followed by what is queued for it, in order. |
| `Queues.NothingLostExactlyWhen` | utils/tss/peerManager.go:63-148 | Over every whole run sent equals delivered plus queued, as multisets, if and only if no call takes for the empty id after a message without a target was put; what is lost never comes back. |
| `Queues.DropFirstIsPerPeer` | utils/tss/peerManager.go:139-145 | Taking for one peer removes the head of that peer's subsequence and leaves every other peer's alone. |
| `StarRouting.EndToEnd` | utils/tss/peerManager.go:85-148 | Between any two parties messages are handled once and in sending order, relayed at most once, and all of them once nothing is in flight. |
| `StarRouting.StarRefinesDirectLink` | utils/tss/serviceAdd.go:35-40 | Each move of the star appends to a direct FIFO, takes its head, or leaves it alone. |
| `StarRouting.DevicesNeverRequeue` | utils/tss/serviceAdd.go:410-412 | A message that lands on a device is consumed; its queue is unchanged. |
| `StarRouting.SendRouted` | utils/tss/peerManager.go:63-73 | Producing a message keeps, for every pair, sent = handled followed by what is under way. |
| `StarRouting.FlushRouted` | utils/ws/ws.go:43-101 | So does a device's sender. |
| `StarRouting.ForwardRouted` | utils/tss/serviceAdd.go:330-332 | So does one of the server's two senders on the shared queue. |
| `StarRouting.ServerHandleRouted` | utils/tss/serviceAdd.go:335-337 | So does the server's reader, consuming or relaying. |
| `StarRouting.DeviceHandleRouted` | utils/tss/serviceAdd.go:478-480 | So does a device's reader. |
| `DkgHang.AlwaysReturnsIff` | server/tss_dkg.go:163-254 | For any scripts the library itself can complete, closed connections included: key generation always ends with both sides returned if and only if the server can finish only when the client needs nothing more; otherwise it can hang with the wallet stored. |
| `DkgHang.HangsUnlessServerFinishesLast` | client/client.go:190-213 | If the server can finish while the client needs a message, a run exists that stores the wallet and leaves the client waiting with nothing left to happen. |
| `DkgHang.SymmetricRoundCanHang` | utils/ws/ws.go:44-50 | A library whose last round is symmetric never gets stuck itself and yet key generation can hang with it. |
| `DkgHang.ClientFirstAlwaysReturns` | client/client.go:227-262 | A library closed by the client's message always returns. |
| `DkgProgress.Progress` | server/tss_dkg.go:190-254 | When the server finishes last, every state that is not finished has a next step. |
| `DkgProgress.RunsAreBounded` | server/tss_dkg.go:85-188 | Every run of key generation is finite, with a bound. |
| `DkgProgress.StepKeepsInv` | client/client.go:123-225 | Every TSS message is queued, on the wire or handed over, and the control frames match the program counters, after every step. |
| `DkgProgress.ClientReturnsAfterStore` | client/client.go:240-262 | In every run, faults included, the client returns a wallet only after the server stored its own and both libraries finished, and a reported error only after its library finished and the handler is gone. |
| `DkgProgress.HandlerNeverFails` | server/tss_dkg.go:200-254 | Without faults the handler never returns with an error, and one reaches the client only after the handler has come to its end and the wallet is stored. |
| `DkgErrors.CanLoseShareIff` | client/client.go:123-147 | Without faults some run stores the wallet, brings the handler home and gives the client an error if and only if the library can finish both sides at all. |
| `DkgErrors.FailsUnstoredIff` | server/tss_dkg.go:200-228 | The client can be given an error with nothing stored if and only if the handler may return early and the library can finish the client's side. |
| `DkgErrors.ClientFailsExactlyWhen` | client/client.go:240-245 | In every run `Dkg` returns a reported error if and only if it looks after its reader or sender has reported one. |
| `DkgErrors.HandlerFailsExactlyWhen` | server/tss_dkg.go:208-215 | In every run the handler fails if and only if it looks for errors after its reader or sender has reported one, or a fault ends it. |
| `DkgErrors.HandlerLooks` | server/tss_dkg.go:208-223 | Its look alone decides: with a report before, it fails; without, it goes on to store the wallet. |
| `DkgErrors.NothingStoredAfterReport` | server/tss_dkg.go:209-223 | A lost connection that is reported before the handler looks leaves nothing stored, whatever follows. |
| `DkgErrors.OutcomeExactlyWhen` | client/client.go:230-236 | In every run a wallet is stored exactly when the handler stored it, with or without the metadata getting out, and the client comes back with nothing exactly when its own library failed. |
| `DkgErrors.ReturnEarlyIff` | server/tss_dkg.go:200-243 | The exact places where either side can return early: the handler while its library runs and, if and only if the library can finish there, while it stores the wallet, stored or not; the client while its library runs. |
| `DkgErrors.ClientCanFail` | server/tss_dkg.go:247-253 | For every library that can complete, some run stores the wallet, brings the handler home and returns an error to the client. |
| `Decimal.ParsePrint` | utils/tss/tssManager.go:144-149 | Every integer printed is read back unchanged. |
| `Decimal.PrintParse` | utils/tss/serviceAdd.go:305 | A text that parses survives parse and print if and only if it is canonical. |
| `Decimal.PrintIsCanonical` | utils/tss/tssManager.go:89 | What is printed is canonical. |
| `Decimal.ParsesIff` | utils/tss/serviceSigner.go:65-69 | A text parses if and only if it is an optional sign and one or more digits. |
| `Decimal.ParseIgnoresZeros` | utils/tss/serviceSigner.go:65-69 | Leading zeros and a plus sign do not change the number, a minus sign negates it. |
| `Wallets.PostProcessResult` | utils/tss/tssManager.go:84-112 | The loop builds exactly the printed wallet. |
| `Wallets.ConvertDKGResult` | utils/tss/serviceSigner.go:47-89 | Converts if the point is on the curve and all texts parse, with the source's error otherwise. |
| `Wallets.ConvertPrinted` | utils/tss/serviceSigner.go:65-86 | Printing, storing and converting give the library back what it returned. |
| `Wallets.FilterBKs` | utils/tss/tssManager.go:371-376 | The loop keeps exactly the server's entry and one device's. |
| `Wallets.MergeDkgResults` | utils/tss/tssManager.go:160-184 | Accepts if and only if address, peer id, share and both key coordinates agree; then the first wallet with the union of the maps, the second winning. |
| `AddServices.ServerAdd.NewServerAdd` | utils/tss/serviceAdd.go:255-288 | Starts exactly when the key parses and lies on the curve and share and the two filtered entries parse, with the source's error otherwise; it works on these texts and keeps the whole map. |
| `AddServices.OriginalOfStarted` | utils/tss/serviceAdd.go:234-253 | The original wallet of a started adder is the wallet it was started from, its key printed afresh and the server as its peer. |
| `AddServices.ServerAdd.OnStateChanged` | utils/tss/serviceAdd.go:116-136 | Final states close the done channel; the result is kept only on success. |
| `AddServices.ServerAdd.Process` | utils/tss/serviceAdd.go:294-328 | Gives the printed library result with the server as peer id, or an error without a result. |
| `AddServices.PrintedWalletStarts` | utils/tss/serviceAdd.go:346-359 | A stored wallet always starts a session, with exactly the two parties' parameters. |
| `AddServices.MergesIffCanonical` | server/tss_add.go:584-607 | Whatever is stored, original and updated wallet merge if and only if the share is canonical text. |
| `AddServices.AdditionMerges` | server/tss_add.go:601-607 | On printed wallets the merge loses and changes nothing and adds the new peer. |
| `AddServices.NewShareOnLine` | utils/tss/serviceAdd.go:453-468 | The new peer's share lies on the polynomial of the two old shares. |
| `AcceptHandlers.StoreAddition` | server/tss_add.go:584-616 | Success means that the user's rows hold the wallet the adder was started from, every party of it kept, with the parties of the library's result added, and that a device row of the new peer exists. The merge is rejected exactly when the result's key, address or share prints differently. Every error leaves the tables alone. |
| `AcceptHandlers.CommitIsAddition` | server/tss_add.go:601-616 | A commit of the wallet system has exactly this method's effect for an adder started from the session's wallet. |
| `Database.Queries.Dkg` | server/database/query.sql.go:140-188 | Inserts one user, one wallet and one device and nothing else. |
| `Database.Queries.AddPeer` | server/database/query.sql.go:45-90 | Rewrites every wallet of every user with the foreign key and inserts one device per rewritten wallet; without one nothing changes. |
| `Database.Queries.GetUserByForeignKey` | server/database/query.sql.go:218-229 | The first user with the foreign key, or none. |
| `Database.Queries.GetUserSigningParameters` | server/database/query.sql.go:265-291 | The left join: no row without a user, empty wallet columns without a wallet. |
| `Database.Queries.GetUserDevices` | server/database/query.sql.go:231-263 | The user's device rows in table order. |
| `Database.DevicesOfIsFilter` | server/database/query.sql.go:231-234 | The listed devices are all of the user's, nobody else's, none more often than stored, and an insert only extends the list. |
| `Database.OneDeviceEach` | server/database/query.sql.go:45-63 | One device row is inserted for each rewritten wallet, in order, with the given peer id and agent. |
| `Vaults.Vault.WalletExists` | server/vault/wallet.go:27-31 | No error exactly when a user with the foreign key exists. |
| `Vaults.Vault.StoreWallet` | server/vault/wallet.go:37-75 | Inserts one user, one wallet with the seal under the client's key and one device, with the given columns, and returns the key text; an error leaves the tables alone. |
| `Vaults.Vault.AddPeer` | server/vault/wallet.go:79-121 | Each error exactly: no metadata, metadata that does not decode, a key that cannot seal, a user without a wallet. Success means the wallets hold the new seal and a device row with the peer id was inserted; every error leaves the tables alone. |
| `Vaults.Vault.RetrieveWallet` | server/vault/wallet.go:125-162 | A success means that some row of that user opens under the key in the metadata to the wallet returned; each error case, the fault of AES-GCM on a nonce of the wrong size included. |
| `Vaults.UpdateExtends` | server/vault/wallet.go:111-121 | The update changes nothing exactly when the user owns no wallet, and otherwise rewrites the seals and inserts devices. |
| `Vaults.NewUserHasOneDevice` | server/database/query.sql.go:140-188 | A new user's device list is the one row with the given peer id and agent. |
| `Vaults.OneWalletAfterDkgIff` | server/tss_dkg.go:33-43 | After the insert the user owns exactly one wallet if and only if no such user existed before. |
| `Vaults.DkgKeepsOthers` | server/database/query.sql.go:140-159 | Storing one user's wallet leaves every other user's rows alone. |
| `Vaults.AddPeerOnOneWallet` | server/database/query.sql.go:45-63 | For a user with one wallet exactly that row is rewritten and exactly one device of it inserted. |
| `Vaults.AddPeerKeepsOthers` | server/database/query.sql.go:51-58 | Adding a peer leaves every other user's rows alone. |
| `WalletInvariant.StepKeepsInv` | server/tss_add.go:577-616 | Every action of every user keeps, for all users at once: one wallet row, one device row per party, the record the printed share of one polynomial, each local wallet a part of it. |
| `WalletInvariant.RunKeepsInv` | server/tss_dkg.go:200-228 | The same after every run. |
| `WalletInvariant.MergeAccepts` | utils/tss/tssManager.go:160-163 | In every state that meets the invariant the merge accepts and gives the extended record. |
| `WalletInvariant.SessionStarts` | server/tss_add.go:171-198 | In every such state the record is read and both services of an addition start, whichever device accepts. |
| `WalletTheorems.OneKeyForLife` | utils/tss/recovery.go:32-79 | After key generation and any later run, every device's share with the server's record recovers the generated key, whose public key is the stored one. |
| `WalletTheorems.EveryDeviceCanSign` | utils/tss/tssManager.go:363-443 | For every device in every reachable state both filters give the same two entries, as many as the threshold constant; both signers start, each with the other as the one peer of its peer manager, with the same key and parameters, and the two shares combine to the key. |
| `SignerServices.NewServerSigner` | utils/tss/tssManager.go:363-394 | Starts exactly when key, share and the filtered entries convert, with the source's error otherwise; the peer manager is the server's and knows the client only. |
| `SignerServices.NewClientSigner` | utils/tss/tssManager.go:425-456 | The same for the client, whose peer manager is its own and knows the server only. |
| `WalletTheorems.RecordNamesTheDevices` | server/database/query.sql.go:45-63 | In every reachable state the record's parties are the server and exactly the peer ids of the user's device rows, which all point to the user's one wallet. |
| `WalletTheorems.RetrieveNeverFaults` | server/vault/wallet.go:188-206 | In every reachable state reading a wallet never faults on the nonce, whoever asks and with whatever metadata. |
| `WalletTheorems.MetadataOpensExactly` | server/vault/wallet.go:136-151 | In every reachable state, whatever metadata a user brings: the record if its key opens the user's row, a decoding error if it does not decode, and the decryption error otherwise. |
| `WalletTheorems.AddressIsOfKey` | server/vault/wallet.go:55-62 | The wallet row, the record and every device's wallet carry the address of the generated key. |
| `WalletTheorems.RecordText` | utils/tss/tssManager.go:84-112 | What the record says in text: the generated key and its address, the server's share, and every party's coordinate with rank 0. |
| `WalletTheorems.LocalMapIsPartOfRecord` | utils/tss/serviceAdd.go:346-359 | Each device's map is part of the record's with the same entries and names the server and itself. |
| `WalletTheorems.ForeignKeysAreUnique` | server/sqlc/schema.sql:1-6 | In every reachable state no two users share a foreign key. |
| `WalletTheorems.VaultReturnsMergedWallet` | server/vault/wallet.go:125-162 | Whatever happened since, the metadata handed out retrieves the generated wallet merged with every addition committed since, in order. |
| `WalletTheorems.RunKeeps` | utils/tss/serviceAdd.go:263-287 | No later run changes or loses a local wallet, the metadata, the key, the share, the address or an entry of the record. |
| `WalletTheorems.DkgSucceeds` | server/tss_dkg.go:217-228 | A key generation gives a new user exactly one device row, with its peer id and user agent. |
| `WalletTheorems.OpenSucceeds` | server/tss_add.go:177-198 | From every reachable state an addition accepted by any device starts. |
| `WalletTheorems.CommitSucceeds` | server/tss_add.go:601-616 | Its merge is accepted and stored, adding exactly the new peer and one device row with its peer id and user agent. |
| `WalletTheorems.DeliverSucceeds` | client/tss_add.go:289-326 | Its new device ends with a wallet of its own, which names the server, the device that let it in and itself. |
| `AdditionOfWallet.MetadataOpensUpdatedWallet` | client/tss_add.go:315-326 | End to end, in every run of the protocol on a reachable wallet, failing ones included: when RegisterDevice passes its wait the one wallet committed is the old one with the new device added, the vault accepts it, and the metadata RegisterDevice returns opens it. |
| `AdditionOfWallet.EveryAdditionReturns` | server/tss_add.go:171-198 | On a reachable wallet every fault-free run that cannot continue has all four processes returned: there the metadata always opens the record. |
| `AdditionOfWallet.AddersHoldTheKey` | client/tss_add.go:171 | On a reachable wallet, once any library runs: the texts the new device was told are the generated key and the coordinates of all parties, the existing device works with its own share of that key, the server with its share. |
| `WalletTheorems.UnclaimedWalletIsFinal` | server/tss_dkg.go:33-43 | If the client of a key generation never received its wallet, that user can never again generate a key or add a device. |
| `Interpolation.InterpolationIsExact` | utils/tss/recovery.go:62-66 | From two shares at different coordinates every value of the line is recovered exactly. |
| `Interpolation.OneShareTellsNothing` | utils/tss/tssManager.go:33 | One share is below the threshold: whatever its value, every secret is possible. |
| `KeyRecovery.RecoverPrivateKey` | utils/tss/recovery.go:32-79 | The loops compute the unreduced sum reduced once; any key returned is a residue that matches the public key; each error exactly. |
| `KeyRecovery.TwoPartiesRecoverSecret` | utils/tss/recovery.go:54-71 | Two rank-0 shares of one line recover its secret. |
| `KeyRecovery.ClientShareAcceptedIff` | utils/tss/recovery.go:68-71 | Next to the right server share, a client share is accepted if and only if it is on the line modulo the order; otherwise the key mismatch is reported. |
| `KeyRecovery.RecoverPrivateKeyWrapper` | utils/tss/tssManager.go:768-805 | The same from stored texts, with every parse and curve error exactly; the returned key's public key is the given one. |
| `KeyRecovery.PrintedWalletRecoversSecret` | server/tss_recover.go:59-73 | A printed wallet and a printed client share on one line give back its secret. |
| `Ecdsa.ToLowS` | utils/tss/tssManager.go:629-643 | Overwrites s in place with its low form and returns the same object. |
| `Ecdsa.LowSRange` | utils/tss/tssManager.go:623-627 | The low form of a residue is in (0, (N-1)/2], is stable, and exactly s and N-s share it. |
| `Ecdsa.LowSKeepsVerification` | utils/tss/tssManager.go:613-643 | For every key, digest, r and every integer s: (r, s) verifies if and only if (r, low s) does. |
| `Bytes.ByteLenFits` | utils/tss/tssManager.go:694-703 | The byte length computed from the bit length is at most n if and only if the number is below 256^n. |
| `Bytes.FillBytes` | utils/tss/tssManager.go:709-710 | Fills its window with the number, big-endian and zero-extended, and nothing else. |
| `Signatures.GenerateSignature` | utils/tss/tssManager.go:692-762 | Denies sizes exactly outside 1 to 32 bytes, keeps a recovery error exactly as the loop does, otherwise requires verification; the 65 bytes decode to r and s and end with the recovery id. |
| `Signatures.TryRecoveryIds` | utils/tss/tssManager.go:713-737 | The loop over the ids: the sticky error and the trailing byte. |
| `RecoveryIds.RecoversSignerIff` | utils/tss/tssManager.go:714-723 | For every id: recovery gives the signer's key if and only if the id stands for the nonce's x, r itself or r plus the order, and for the parity of its y; for the two ids that are tried, if and only if x is below the order and the parity fits. |
| `RecoveryIds.RecoveryIdIsRight` | utils/tss/tssManager.go:725-731 | With the nonce's x below the order the trailing byte is the least id whose key has the wallet's address and its key is the wallet's, up to address collisions; otherwise neither id recovers the key. |
| `RecoveryIds.RefusedExactlyWhen` | utils/tss/tssManager.go:734-737 | With the nonce's x below the order a valid signature is refused if and only if y is odd and 2z + rq is a multiple of the order. |
| `RecoveryIds.RefusedAboveOrder` | utils/tss/tssManager.go:713-737 | With the nonce's x at or above the order and a unique address, a valid signature is refused if and only if no point has x equal to r or one that does recovers the identity; otherwise it leaves. |
| `RecoveryIds.NonceAboveOrderIsRefused` | utils/tss/tssManager.go:719-723 | A valid signature, on a concrete curve, for which no id exists. |
| `RecoveryIds.NonceAboveOrderLeavesUnusable` | utils/tss/tssManager.go:725-731 | A valid signature, on a concrete curve, that leaves with an id that recovers another key of another address. |
| `RecoveryIds.ErrorOfFirstIdIsKept` | utils/tss/tssManager.go:713-737 | A valid signature, on a concrete curve, refused although id 1 recovers its key. |
| `Signers.PostProcess` | utils/tss/serviceSigner.go:135-157 | Lowers s in place; what comes out is low-S, was valid and still is, and encodes r, s and the id; a valid input is refused exactly in the cases above, below the order and, up to address collisions, above it. |

## Left out

- The internals of the threshold library (key generation, signing, add-share, Paillier), curve point arithmetic, Keccak, AES-GCM, JSON, protobuf and hex, except for the laws listed under "What is assumed".
- `GetInterHandlersChannels` when one connection is not yet open: a session starts with both connections accepted and the channels in the cache.
- Websockets are FIFO sequences; what was sent before a close is read before the close is seen. Timeouts and broken connections appear in the add-device protocol as threads that stop for good or main threads that return early. A reader's write to a closed connection is taken to succeed. Polling intervals are not modelled.
- Goroutines are interleaved at their blocking points; the unsynchronised accesses of a handler's reader and main thread to the same variable are atomic steps.
- Frozen threads in key generation; its faults end a main thread early.
- A handler's own report of a connection its device has closed is not tracked: that handler may then return early at any point where it looks.
- The sessions of the signing transport (`Send`, `Receive`, `GetNextMessageToSend`), their polling and their empty-message convention.
- Bit widths: `rank` and `stage` are unbounded where the original uses 32 bits; no arithmetic is done on them.
- The row an SQL query without ordering picks among several is the first one stored; serial numbers of the three tables come from one counter.
- Overlapping additions or key generations of one user.
- Authorisation, token caches, HTTP handlers, configuration, transaction helpers, mobile and web wrappers.
- AddDeviceTermination.EveryFaultFreeRunReturns: counts a RegisterDevice that returns an error as returned; assumes the library contract; the waits of the original do not watch the context, so nothing is claimed for runs with faults.
- KeyRecovery.RecoverPrivateKey: a missing parameter is reported as an error where the original faults inside the library.
- Database.Queries.Dkg: the original relies on absent unique indexes for its conflict clauses; they never apply here.
- Signatures.GenerateSignature: the digest is one integer for verification and recovery; how a longer message would be truncated is not modelled.
