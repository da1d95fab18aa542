# KyNotes server, modelled and proved

KyNotes is an end-to-end encrypted notebook server. Its difficult logic sits in SQL transactions, which
run one at a time because the store opens with immediate transaction locks
(`internal/storage/store.go:72`). Each transaction is one step here, over maps that stand for the
tables; file operations outside a transaction, crashes, restarts and clock readings are steps of their
own. A main result is a statement about every step, every reachable state or every run.

| files | what they model |
|---|---|
| `team_model`, `team_invariant`, `team_runs`, `team_example`, `team_effects`, `team_tables`, `team_access`, `team_server` | who holds which key generation of a notebook: rotations, envelopes, invitations, removals, identity resets, content writes |
| `cell_layout` | SQLite row sizes and leaf-cell layout (SQLite Database File Format, sections 1.6 and 2.1) and the padding search that keeps a replacement row from growing |
| `utf`, `cleanup_codec`, `cleanup_record`, `cleanup_slots`, `cleanup_audit`, `cleanup_tables`, `cleanup_store` | deletion audits reserved in advance: their text encoding (RFC 3629, RFC 2781) and JSON (RFC 8259), their size, their life over a run, and the funding of every deletion |
| `content_model`, `content_tables`, `content_blobs`, `content_retention`, `content_saves`, `content_feed`, `content_server` | pages, conflicts, comments, attachments and the blob files behind them: garbage collection, how long it waits, optimistic saves and replay, the change feed |
| `sso`, `stepup`, `sso_tables`, `sso_server` | sign-on, back-channel logout (OpenID Connect Back-Channel Logout 1.0, section 2.7) and one-shot step-up challenges |
| `upload`, `blobstore` | chunked uploads and temporary files |
| `link`, `link_tables`, `link_server` | the device-link relay |
| `keyring`, `keyring_complete`, `bridge` | the MCP bridge's trust-on-first-use keyring across refreshes and restarts |
| `outcome` | `Option` and `Result` |

Code that changes tables or files step by step is modelled twice: a function gives the state after it
(the specification the theorems are about), and a class method with the same statements and loops, rolling
back on error, is proved to follow that function. A failing transaction is an `Err`, a `None` or an
unchanged state, never a precondition.

The transaction functions are themselves pinned a second time, the other way round: the `_tables` files say for every
table and every row what the row holds after a transaction, and for every transaction when it commits, without the
functions, and prove that the functions agree. So each main theorem about runs rests on transactions of which both
what they may do and what they must do is proved.

IDs are opaque numbers. Hashes are collision-free: a digest is modelled by what it was taken of. Opening
an envelope is an arbitrary function. Clock readings are inputs and never run backwards.

Some things the code's own comments or tests might lead one to expect are false. Each has a concrete witness
here and the exact condition under which it holds:

- New content is above every generation a removed member, or a replaced identity, ever held. Uploading a deleted
  attachment's bytes again revives its row at its old generation. It holds of a hold and a committed row if and
  only if the row is not revived from that hold's generation or below (`TeamRuns.ContentAboveOutsiders` and the two
  theorems over runs below it; `TeamExample.RevivalKeepsOldGeneration` is the witness, a run).
- Every change of a row is announced by the feed. Attachments that fall with their page, revived attachments and
  pages and attachments of a deleted notebook keep their sequence number; comments and conflicts of a deleted page
  or notebook, and swept tombstones, vanish (`ContentFeed.UnannouncedIff`; witnesses
  `ContentFeed.FallenAttachmentIsSilent` and `ContentFeed.FallenCommentVanishes`).
- A remembered digest never changes. It never does if and only if it is saved (`Bridge.SettledIffSaved`; witness
  `Bridge.UnsavedDigestMayChange`).
- A live attachment's preview is on disk. It comes to be missing exactly when a finalize records, or revives a row
  with, a preview that is not there then (`ContentBlobs.PreviewDanglesIff`; witness `ContentBlobs.PreviewMayDangle`).
- A reserved deletion never fails. Of a comment the server wrote, on its pages of 4096 bytes, it fails exactly when
  the notebook's counter cannot advance: at its last value, or when the search for the notebook row's padding is
  stuck at the size where the leaf part of a record falls back to its minimum
  (`CleanupSlots.ServerDeletionFailsIff`, `CellLayout.SearchFailsIffStuck`; witness
  `CleanupSlots.CounterStopsDeletion`, a state whose counter passes 2^47 - 1). The comment's own row never stands in
  the way (`CleanupSlots.ServerTombstoneFits`), and revoking a sealed link never fails.
- A written audit record passes verification at migration and restore. It does if and only if the request ID, read
  back, is within the limit it was admitted under: a byte that is no text is stored as a replacement character and
  reads back as three (`CleanupAudit.VerificationFailsIff`; witness
  `CleanupAudit.UnreadableRequestFailsVerification`, a run of two steps).
- A retry under a retained key returns the original answer. It does if and only if the page is still live and the
  caller still admitted (`ContentSaves.RetryReturnsOriginal`; witness `ContentSaves.RetainedKeyRefused`, a run).

## Model

| member | source | states |
|---|---|---|
| TeamInvariant.StepKeepsInv | internal/httpapi/teamkeys_routes.go:131-526 | Every transaction keeps: each envelope's owner is a live, approved member and its generation lies between shared_generation and key_generation; each invitation envelope sits at its container's current generation, put there by a live steward for a live identity |
| TeamInvariant.PutAllExtendsHeld | internal/httpapi/teamkeys_routes.go:176-198 | A PUT only adds envelopes at generations some envelope already held |
| TeamInvariant.AcceptMoves | internal/httpapi/teamkeys_routes.go:489-526 | Accepting stores exactly the invitation's movable envelopes, each unless its slot is taken, changes no existing envelope, and drops the invitation's own |
| TeamRuns.StepRises | internal/httpapi/teamkeys_routes.go:246 | No step lowers a generation or raises it by more than one, un-deletes a container, or sets shared_generation other than once, by that container's rotation, to the generation it mints |
| TeamRuns.StepKeepsMembers | internal/httpapi/teamkeys_routes.go:357-403 | A live keyed container that keeps its generation loses no approved member and no member's device |
| TeamRuns.NewEnvelope | internal/httpapi/teamkeys_routes.go:125-174 | A new envelope's bytes are those its writer submitted, a steward unless it is for the writer's own paired device, or those of a row of the accepted invitation whose inviter is a steward still; only a rotation or an accepted invitation gives a generation its first envelope |
| TeamRuns.ChangedEnvelope | internal/httpapi/teamkeys_routes.go:150-161 | An existing envelope is replaced only by its owner re-wrapping its own identity, in a PUT or a rotation |
| TeamRuns.NoMembershipWithoutAdmission | internal/httpapi/teamkeys_routes.go:412-438 | Nobody becomes a live member of an existing container but by accepting an invitation to, or an administrator's add in, a scope that holds it |
| TeamRuns.GateAdmitsOnlyApproved | internal/httpapi/teamkeys_routes.go:333-352 | Although the write gate never reads `approved`, whoever passes it is an approved live member of a live container at its current generation |
| TeamRuns.CommittedGeneration | internal/httpapi/upload_routes.go:415-430 | A committed row carries the current generation if and only if it is not a revived attachment row of another generation |
| TeamExample.RevivalKeepsOldGeneration | internal/httpapi/upload_routes.go:422-430 | A concrete run from empty tables whose last step, a revival, commits content at a generation held by a member removed two steps before |
| TeamRuns.ContentAboveOutsiders | internal/httpapi/teamkeys_routes.go:333-352 | A committed row's generation is above any generation ever held by someone who is not an approved member with that device now, if and only if the row is not revived from that generation or below |
| TeamRuns.RemovedMemberNeverHeldNewContent | internal/httpapi/teamkeys_routes.go:354-386 | Over every run, after a removal and until admission to the same container again, a row committed there is above every generation any of the member's devices ever held, if and only if it is not revived from that generation or below |
| TeamRuns.OldIdentityNeverHeldNewContent | internal/httpapi/identity_routes.go:232-275 | Over every run, after an identity reset the same holds for good of every generation the old identity ever held |
| TeamRuns.GenerationsNeverFall | internal/httpapi/teamkeys_routes.go:246 | Over any run key_generation never falls and shared_generation, once set, never moves |
| TeamRuns.RotationMintsFreshGeneration | internal/httpapi/teamkeys_routes.go:233-276 | A rotation targets a generation nobody ever held and no envelope has, covers every active approved member's live identity and the caller's own, and writes no other envelope |
| TeamRuns.EnvelopeProvenance | internal/httpapi/teamkeys_routes.go:125-174 | Over any run each stored envelope's first bytes were submitted by a steward (or by a paired device's owner) in a rotation or PUT, or in an earlier invitation, sent by a steward who still is one, that a later step accepted; every later change was its owner re-wrapping its own identity |
| TeamEffects.PutStores | internal/httpapi/device_routes.go:149-172 | A PUT that succeeds leaves under every key its list names the bytes of the last entry naming it, and changes no other row |
| TeamEffects.RotateStores | internal/httpapi/teamkeys_routes.go:246-263 | A rotation that succeeds raises that container by one, leaves under every key its list names the bytes sent for it, drops exactly the container's older invitation envelopes, and changes no other row |
| TeamEffects.PutSucceedsIff | internal/httpapi/teamkeys_routes.go:131-198 | A PUT succeeds if and only if the caller is a live member and each entry extends a generation already held, for a live device of an active approved member, re-wrapping the caller's own identity where the key is taken, else by a steward or for the caller's own paired device |
| TeamEffects.RotateSucceedsIff | internal/httpapi/teamkeys_routes.go:220-276 | In a sound state a rotation succeeds if and only if a steward sends the current generation and distinct storable envelopes for the next one that cover every identity of an active approved member, the caller's own among them |
| TeamTables.StepFollows | internal/httpapi/teamkeys_routes.go:131-526 | After any committed transaction every row of every table (seats, containers, devices, envelopes, invitations and their envelopes, attachments, content) is what its column says for that transaction: nothing due is missing and nothing else changes |
| TeamAccess.CommitsIff | internal/httpapi/teamkeys_routes.go:112-526 | In a sound state each of the 23 transactions commits if and only if its caller may make it, stated for each in terms of the rows |
| TeamAccess.ApprovalIsGiven | internal/httpapi/admin_routes.go:126-134 | Approval in an existing container comes only from accepting an invitation of someone who still leads there, or from an approved steward; an administrator's add gives none |
| TeamServer.Server.StoreEnvelope | internal/httpapi/teamkeys_routes.go:131-174 | The statements of insertEnvelopeTx follow the specification, errors included: answered without error, the key holds the bytes sent and no other key changed; with one, nothing changed |
| TeamServer.Server.StoreEnvelopes | internal/httpapi/device_routes.go:149-172 | The PUT loop resolves and stores each envelope in order and undoes all of them when one fails |
| TeamServer.Server.RotateKeys | internal/httpapi/teamkeys_routes.go:220-276 | The rotation handler follows the specification, undoing the new generation and every envelope on any refusal |
| TeamServer.AnswerIsTrue | internal/httpapi/device_routes.go:149-172 | A PUT or rotation answered without error has stored every envelope of the request, the last one naming a key winning, and touched no other; one answered with an error has touched nothing |
| TeamServer.Server.RepeatsDevice | internal/httpapi/teamkeys_routes.go:224-231 | The seen-set loop refuses exactly the envelope lists that name a device twice |
| TeamServer.Server.CheckWriteGate | internal/httpapi/teamkeys_routes.go:336-352 | The gate's checks in order, with the error of the first that fails |
| TeamServer.Server.StoreInviteEnvelope | internal/httpapi/teamkeys_routes.go:448-487 | insertInvitationEnvelopeTx follows the specification |
| TeamServer.Server.SendInvite | internal/httpapi/collab_routes.go:141-210 | The invitation and all its envelopes are stored, or none |
| TeamServer.Server.MoveInviteEnvelopes | internal/httpapi/teamkeys_routes.go:492-526 | Inserting the selected rows one by one, existing ones winning, is the specified union, in whatever order they come |
| TeamServer.Server.AdmitMember | internal/httpapi/teamkeys_routes.go:412-438 | The update and the insert together give every live container of the scope the one admitted row |
| TeamServer.Server.AcceptInvitation | internal/httpapi/collab_routes.go:212-262 | Accepting follows the specification and reopens the invitation when admission fails |
| TeamServer.Server.DropMember | internal/httpapi/teamkeys_routes.go:357-386 | The eight removal statements in order amount to the specified removal |
| TeamInvariant.RetiringClosesGate | internal/httpapi/teamkeys_routes.go:393-403 | Retiring a user's keys keeps the invariant and closes the write gate of exactly the live keyed containers the user is an approved member of, to everyone, until a new generation is handed out |
| TeamServer.Server.RetireMemberKeys | internal/httpapi/teamkeys_routes.go:393-403 | retireKeysTx leaves a sound state in which nobody passes the write gate of a container it retired |
| TeamServer.Server.ReplaceIdentity | internal/httpapi/identity_routes.go:232-300 | The reset's compare-and-swap, revocations, retirement, deletion and insertion follow the specification, all or none |
| CellLayout.VarintBytes | internal/storage/cleanup_rows.go:148-155 | The loop returns the least width in 1..9 whose 7-bit groups hold the value as an unsigned 64-bit number |
| CellLayout.HeaderLenIsLeastFixpoint | internal/storage/cleanup_rows.go:140-146 | A header length consistent with itself always exists by nine bytes, and the least one is the one computed |
| CellLayout.RecordSize | internal/storage/cleanup_rows.go:140-146 | The loop ends, by nine, at the least self-consistent length, and returns exactly that record's size |
| CellLayout.RecordParts | internal/storage/cleanup_rows.go:93-138 | The loop's header and body are the sums of the serial-type varints and of the content lengths of the values |
| CellLayout.IntegerBytesIsLeast | internal/storage/cleanup_rows.go:99-116 | Of the widths the format offers, an integer other than 0 and 1 takes the least that holds it in two's complement |
| CellLayout.Layout | internal/storage/cleanup_rows.go:158-173 | The reassigned locals compute the specified cell bytes and overflow pages |
| CellLayout.LayoutHoldsPayload | internal/storage/cleanup_rows.go:158-173 | The layout stores the payload exactly: leaf part within its bounds, full overflow pages, only the last one partly full |
| CellLayout.OverflowIsCeiling | internal/storage/cleanup_rows.go:160-167 | A spilled payload's overflow page count is its excess over the inline limit in whole cycles, rounded up |
| CellLayout.FindPadding | internal/storage/cleanup_rows.go:71-81 | The search loop returns the least non-growing padding of its window, or none if the window has none, stopping early or not |
| CellLayout.PadGrowsByOneToThree | internal/storage/cleanup_rows.go:72 | Each extra pad byte grows the record by one to three bytes |
| CellLayout.PaddedIsRemeasured | internal/storage/cleanup_rows.go:66-72 | The incremental per-pad size equals measuring the whole row again with that padding |
| CellLayout.FirstFit | internal/storage/cleanup_rows.go:71-81 | The reference search: its result fits, is in range, and nothing in range below it fits |
| CellLayout.SearchIsComplete | internal/storage/cleanup_rows.go:65-81 | For usable size 480 and up the bounded window loses nothing: the search succeeds if and only if any padding at all from the minimum up fits |
| CellLayout.SearchSucceeds | internal/storage/cleanup_rows.go:65-81 | It always succeeds for an inline old row whose minimal replacement is no larger, and for a spilled one that shrinks by usable-3 bytes or to a leaf's minimum |
| CellLayout.SearchFailsIffStuck | internal/storage/cleanup_rows.go:65-81 | For a replacement that can be made no larger the search fails if and only if the old record is spilled and at most a byte past a wrap of its leaf part, the least replacement is less than a cycle smaller, before that wrap, with too much on its leaf, and one of the eight widenings of the padding's header steps from short of the wrap to past the old size |
| CellLayout.StepsOverIff | internal/storage/cleanup_rows.go:70-72 | No padding's record lands in a range of sizes if and only if one of the eight paddings at which the padding's serial type widens takes the record from short of the range to past it |
| CellLayout.CleanupRowPadding | internal/storage/cleanup_rows.go:15-82 | The whole function, from row and changes, returns what measuring every candidate row afresh would choose, and the right error when the row, the column or a layout is missing |
| Utf.RunesOfUtf8 | internal/storage/cleanup_slots.go:336 | Reading back the UTF-8 of any scalars gives those scalars |
| Utf.WellFormedIff | internal/storage/cleanup_slots.go:336 | Bytes are well-formed UTF-8 exactly when reading and rewriting them changes nothing |
| Utf.ReadsEncodingsOnly | internal/storage/cleanup_slots.go:336 | Bytes are read as a scalar if and only if they start with that scalar's encoding; any other byte is read alone, as U+FFFD |
| Utf.FromUtf16OfUtf16 | internal/storage/cleanup_slots.go:336-360 | utf16.Decode undoes utf16.Encode, surrogate pairs included |
| Utf.UnitsAtMostBytes | internal/storage/cleanup_slots.go:58-60 | Any byte string has no more UTF-16 units than bytes, so doubling a slot suffices |
| CleanupCodec.PadCleanupJson | internal/storage/cleanup_slots.go:333-348 | The buffer-filling code computes the specified padded text or refuses |
| CleanupCodec.DecodeCleanupJson | internal/storage/cleanup_slots.go:349-361 | The unit-reading loop computes the specified decoding or refuses odd lengths |
| CleanupCodec.PaddedReadsBack | internal/storage/cleanup_slots.go:333-361 | A padded text has exactly the requested length and decodes to what the encoding carries of it followed by spaces only, in either byte order |
| CleanupCodec.RoundTripIff | internal/storage/cleanup_slots.go:333-361 | Decoding undoes padding, up to trailing spaces, if and only if the database is UTF-8 or the text well formed |
| CleanupCodec.EscapedAtMostSix | internal/storage/cleanup_slots.go:50-52 | Every input byte of any string takes at most six bytes of JSON |
| CleanupCodec.EmptyRecord | internal/storage/cleanup_slots.go:49 | The empty record the slot size is computed from is 53 bytes long |
| CleanupCodec.RecordFits | internal/storage/cleanup_slots.go:44-66 | A record for any actor no longer than the slot was sized for, any request ID of at most 128 bytes and any timestamp pads to the slot's length in every encoding |
| CleanupCodec.NullIsUnfilled | internal/storage/cleanup_slots.go:86-90 | A reserved payload reads as unfilled |
| CleanupCodec.RecordFills | internal/storage/cleanup_slots.go:108-119 | A written record never reads as unfilled |
| CleanupRecord.RecordReadsBack | internal/storage/cleanup_slots.go:115 | A reader of the JSON object, defined apart from the writer, finds in what was written exactly the actor, the request and the time, bytes that are no text replaced |
| CleanupRecord.SlotReadsBack | internal/storage/cleanup_slots.go:108-121 | So does decoding and reading the padded slot, in every encoding |
| CleanupSlots.CounterBytesIsColumnWidth | internal/storage/cleanup_slots.go:180-199 | counterBytes agrees with the stored column width for every counter, is at most eight and never falls as the counter rises |
| CleanupSlots.StepKeepsInv | internal/storage/cleanup_slots.go:70-262 | Every step keeps: a live comment or link has its one slot, unfilled; a closed one's is filled; an unfilled slot belongs to a live source and has room for any user's record; a container's padding still covers its counter's growth to eight bytes |
| CleanupSlots.FillShape | internal/storage/cleanup_slots.go:96-125 | Filling turns one unfilled slot into a record of the same length, keeping its binding, and touches nothing else |
| CleanupAudit.ClosingSays | internal/storage/cleanup_slots.go:96-125 | Deleting a live comment or revoking a link leaves a slot that reads back as its own caller, request and time |
| CleanupAudit.SlotNamesItsCaller | internal/storage/cleanup_slots.go:94-125 | Over any run a slot filled since its start was filled by one deletion or revocation of its own source and reads back as that one's caller, request and time ever after |
| CleanupTables.CommitsIff | internal/storage/cleanup_slots.go:70-92 | Every transaction that closes nothing commits if and only if its rows are there, its IDs are free, the counter is below its last value and the budget takes the slot |
| CleanupTables.StepFollows | internal/storage/cleanup_slots.go:70-262 | After any transaction every container, comment, link and slot holds what that transaction should leave there, padding chosen by the row search apart, and nothing else changes |
| CleanupSlots.FilledSlotIsFinal | internal/storage/migrations/0031_cleanup_slots.sql:17-22 | Over any run a slot is filled at most once: a filled slot never changes and never goes |
| CleanupSlots.SlotLengthNeverChanges | internal/storage/cleanup_slots.go:94-95 | While a slot exists its payload keeps its length, through filling and after |
| CleanupSlots.StepPays | internal/storage/cleanup_slots.go:210-220 | A step charges a container's padding no more than the widening of the counter it caused |
| CleanupSlots.AtMostEightBytesCharged | internal/storage/cleanup_slots.go:201-222 | Over any run one container's padding pays at most eight bytes for counter growth |
| CleanupSlots.AdvanceFailsIff | internal/storage/cleanup_slots.go:201-222 | A live container's counter advances if and only if it is below its last value and the padding search is not stuck |
| CleanupSlots.AdvanceSeldomStuck | internal/storage/cleanup_slots.go:201-222 | That search is not stuck for an inline row, nor while the padding's own header keeps its width: below 8186 bytes of padding only the last widening of the counter can change it |
| CleanupSlots.TombstoneFailsIff | internal/storage/cleanup_slots.go:224-243 | A live comment's tombstone fits if and only if the padding search is not stuck |
| CleanupSlots.TombstoneSeldomStuck | internal/storage/cleanup_slots.go:224-243 | That search is not stuck for an inline row, nor two bytes past a wrap, nor when the row gives back an overflow cycle and a byte or shrinks to a leaf's minimum |
| CleanupSlots.DeletionFailsIff | internal/httpapi/collab_routes.go:375-414 | In every state with the reservations, deleting a live comment succeeds for any user, request ID and time if and only if the counter is below its last value and neither search is stuck |
| CleanupSlots.DeletionNeverFails | internal/httpapi/collab_routes.go:375-414 | So it does for every row those two conditions cover, spilled or not, widening or not |
| CleanupSlots.CounterMayBeStuck | internal/storage/cleanup_slots.go:201-222 | A project's row, with a sealed name within the 4096 bytes taken, whose counter has no layout to advance into |
| CleanupSlots.TombstoneMayBeStuck | internal/storage/cleanup_rows.go:65-81 | The row search alone, given a row wider than any comment the server writes, can have no layout for a tombstone |
| CleanupSlots.ServerTombstoneFits | internal/httpapi/collab_routes.go:341 | A comment with the columns the server writes, no text in them longer than a minted ID, always has a layout for its tombstone on pages with 3551 usable bytes or more, in every encoding |
| CleanupSlots.ServerDeletionFailsIff | internal/httpapi/collab_routes.go:375-414 | Deleting such a comment succeeds for any user, request ID and time if and only if the notebook's counter is below its last value and its row's search is not stuck |
| CleanupSlots.CounterStopsDeletion | internal/storage/cleanup_slots.go:201-222 | A state with every reservation in place, a comment as the server writes it and a sealed name within its limit, in which nobody can delete the comment at any time |
| CleanupSlots.RevocationNeverFails | internal/storage/cleanup_slots.go:244-262 | In every state with the reservations the owner's revocation of a live sealed link succeeds, for any request ID, time and layout |
| CleanupSlots.ReservationsVerify | internal/storage/cleanup_slots.go:127-178 | What verification at migration and restore demands, but of the records in filled slots, holds in every state of every run, and a slot is unfilled if and only if its source is live |
| CleanupAudit.VerificationFailsIff | internal/storage/cleanup_slots.go:148-161 | All it demands holds in a reachable state if and only if no deletion or revocation so far came in a request whose ID reads back longer than 128 bytes |
| CleanupAudit.UnreadableRequestFailsVerification | internal/httpapi/middleware.go:27-33 | A run in which a link is revoked in an admitted request of 43 bytes that are no text, after which verification fails |
| CleanupStore.Store.SlotBytes | internal/storage/cleanup_slots.go:44-66 | The measured slot size is the specified one for the longest user ID |
| CleanupStore.Store.ReserveAudit | internal/storage/cleanup_slots.go:70-92 | Reservation follows the specification or changes nothing |
| CleanupStore.Store.FillAudit | internal/storage/cleanup_slots.go:96-125 | Filling follows the specification or changes nothing, and the filled slot reads back as the given actor, request and time |
| CleanupStore.Store.AdvanceSeq | internal/storage/cleanup_slots.go:201-222 | The counter advance, through the row search, follows the specification |
| CleanupStore.Store.TombstoneComment | internal/storage/cleanup_slots.go:224-243 | The tombstone, through the row search, follows the specification |
| CleanupStore.Store.RevokeSealedLink | internal/storage/cleanup_slots.go:244-262 | The revocation, through the row search, follows the specification |
| CleanupStore.Store.RemoveComment | internal/httpapi/collab_routes.go:387-414 | The three updates of a comment deletion commit together or not at all, and then the slot reads back as the caller, request and time |
| ContentTables.StepAgrees | internal/httpapi/object_routes.go:153-414 | Every content transaction commits if and only if it may, and then leaves every row of every table as its column says (the stored version or conflict with its base and bytes, what a deletion takes, what falls with it, marks, keys, links); a refused one changes nothing |
| ContentTables.FileStepFollows | internal/storage/gc.go:92-127 | A sweep begins only on a recorded digest marked before the cut that nothing needs; each file operation, crash and commit changes the work, files and tables exactly so |
| ContentBlobs.StepKeepsInv | internal/storage/gc.go:92-127 | Every step, of a transaction or of its file operations, keeps: all rows' blobs are recorded, those in force have their files, and a digest being swept is unreferenced |
| ContentBlobs.CommittedContentIsOnDisk | internal/storage/gc.go:95-99 | In every interleaving of publications, saves, refused saves, marking, sweeps and crashes between a file's deletion and its commit, every version's, open conflict's and live attachment's main digest has its row and its file |
| ContentBlobs.ReferencedNeverLost | internal/storage/gc.go:92-127 | No step loses the row or file of a referenced digest, previews included |
| ContentRetention.NothingGoesEarly | internal/storage/gc.go:61-99 | Over every run on one clock, with cuts at the reading less the retention, a recorded digest loses its row or file only more than the retention after a collection found it unused and marked it; the mark stood throughout, and every claim of those bytes lies as far back |
| ContentBlobs.PreviewDanglesIff | internal/httpapi/upload_routes.go:402-430 | In any sound state a step leaves a live attachment's recorded preview without row or file, where it was not before, if and only if it is the attachment's finalize and records, or revives the row with, a preview that is not whole: no sweep, crash or other step takes one away |
| ContentBlobs.PreviewMayDangle | internal/httpapi/upload_routes.go:402-422 | A run that ends so |
| ContentSaves.VersionsHaveNoGaps | internal/httpapi/object_routes.go:394-400 | In every reachable state a page's stored versions are exactly 1 to its current one, each based on the one before; a deleted page has none |
| ContentSaves.SaveAddsExactlyOne | internal/httpapi/object_routes.go:359-414 | An accepted save adds exactly one version, on the current base, or one conflict, holding its bytes; every other outcome adds nothing |
| ContentSaves.RetryReturnsOriginal | internal/httpapi/object_routes.go:229-257 | A retry that arrives while its key is retained is answered before its body is read, with the original version or conflict if and only if the page is live and the caller still passes role and gate; else it is refused |
| ContentSaves.RetainedKeyRefused | internal/httpapi/object_routes.go:229-257 | A run in which a save is accepted, its page deleted, and a retry under the key still stored refused |
| ContentSaves.TwinReturnsOriginal | internal/httpapi/object_routes.go:318-340 | A parallel save under the same key whose transaction comes later changes nothing and returns the original's answer if and only if the gate still admits it, even on a deleted page |
| ContentFeed.StepStamps | internal/httpapi/object_routes.go:365-400 | Each step gives a new sequence number to at most one row, the container's next, and leaves all other numbers |
| ContentFeed.RunKeepsFeed | internal/httpapi/sync_routes.go:41 | In every reachable state a container's rows have distinct numbers within its counter |
| ContentFeed.ChangesAreComplete | internal/httpapi/sync_routes.go:41 | The ordered feed contains every row numbered in its range, as it reads now |
| ContentFeed.FeedShowsEveryKind | internal/httpapi/sync_routes.go:41 | Every page, attachment, comment and conflict of the notebook numbered above the cursor is in the feed with its number and whether it is deleted or, a conflict, resolved |
| ContentFeed.ChangesInOrder | internal/httpapi/sync_routes.go:41 | The ordered feed is strictly ascending and holds only such rows |
| ContentFeed.ChangesPage | internal/httpapi/sync_routes.go:47-76 | The handler's loop over limit+1 rows returns the page, cursor and hasMore specified |
| ContentFeed.PageIsWindow | internal/httpapi/sync_routes.go:33-76 | A page is exactly the rows numbered between its cursor and the next, at most the limit of them; it is full and moves on while there is more, and says truly when there is not |
| ContentFeed.Drain | internal/httpapi/sync_routes.go:33-76 | Paging an unchanging feed with any limit terminates with every change once, in order |
| ContentFeed.PagingLosesNothing | internal/httpapi/sync_routes.go:33-76 | With any writes between pages, when the last page says there is no more, every row changed after the first cursor is on exactly one page at its latest number |
| ContentFeed.RunsMakeSessions | internal/httpapi/sync_routes.go:33-76 | Pages fetched from any states of any run, in order and with any limits, form such a session |
| ContentFeed.UnannouncedIff | internal/httpapi/object_routes.go:161-176 | What the feed reads of a row changes, or the row goes, without the container's next number, if and only if the row falls or vanishes with its page or notebook, is revived, or is a swept tombstone |
| ContentFeed.FallenAttachmentIsSilent | internal/httpapi/object_routes.go:163 | A run in which a deleted page's attachment falls without a new number |
| ContentFeed.FallenCommentVanishes | internal/httpapi/object_routes.go:170-176 | A run in which a deleted page's live comment vanishes |
| ContentServer.Server.ClaimBlob | internal/httpapi/object_routes.go:430-442 | The claim records the digest unmarked and reports whether its file is there |
| ContentServer.Server.DropUnclaimed | internal/httpapi/object_routes.go:421-426 | Dropping an unclaimed file takes nothing committed rows need |
| ContentServer.Server.SaveObject | internal/httpapi/object_routes.go:318-414 | The save's transaction, its gate, replay, quota and page checks in order, follows the specification, and a replayed or refused one drops its file exactly when unclaimed |
| ContentServer.Server.RemoveObject | internal/httpapi/object_routes.go:153-178 | The page deletion's statements amount to the specified deletion |
| ContentServer.Server.SweepBlob | internal/storage/gc.go:100-127 | A sweep deletes rows and file exactly when the digest is still due |
| ContentServer.Server.SweepEach | internal/storage/gc.go:73-82 | The loop over selected digests sweeps every one of them, none spoiling the next |
| ContentServer.Server.RunGC | internal/storage/gc.go:11-90 | Undisturbed, a collection takes a recorded digest, row and file, if and only if it was marked before the cut and nothing but what deleted notebooks left needs it; of the rest what is needed ends unmarked, what was marked keeps its mark and what is newly needless is marked now; no other row or file goes than theirs, their tombstones', deleted notebooks' and old keys' |
| ContentServer.CollectionIsSafe | internal/storage/gc.go:11-90 | A whole collection keeps the row and file of all content in force |
| Sso.ScopeIsFence | internal/auth/sso_logout.go:57-60 | For all subjects, session IDs and issue times the logout's revocation scope and the login's fence are the same predicate |
| Sso.FenceAfterLogout | internal/auth/sso_session.go:60-81 | For a login begun by then, a logout adds to the fences exactly its own scope, pruning included |
| Sso.LoginAndLogoutCommute | internal/auth/sso_logout.go:35-62 | A login begun before a logout and the logout leave the same live sessions in either commit order, whatever the clock readings, so long as no deadline and no earlier fence's end is passed between the orders |
| Sso.NoSessionSurvivesItsLogout | internal/auth/sso_logout.go:16-83 | Over every run no session in an applied logout's scope whose login had begun by then is live, nor any device paired from it |
| Sso.LogoutTokenAppliesOnce | internal/auth/sso_logout.go:35-54 | Over every run a logout token is applied at most once, whatever is pruned between |
| SsoTables.StepFollows | internal/auth/sso_logout.go:18-83 | Every sign-on transaction commits if and only if it may, stated over the rows, and leaves every session, device and logout record as its column says |
| SsoTables.LogoutBySession | internal/auth/sso_logout.go:55-62 | An applied logout with a session ID ends every session of its issuer and client with that ID, and that subject when it gives one, and its subject's earlier sessions without an ID; every other session stays as it was |
| SsoTables.LogoutBySubject | internal/auth/sso_logout.go:55-62 | One without a session ID ends its subject's sessions issued by then, with an ID or without, and no other |
| SsoTables.LoginRefusedBySession | internal/auth/sso_session.go:60-81 | After the first kind no login that was under way commits with that session ID (and subject), nor without one for its subject if issued by then |
| SsoTables.LoginRefusedBySubject | internal/auth/sso_session.go:60-81 | After the second kind none commits for its subject if issued by then |
| SsoTables.LoginSpared | internal/auth/sso_session.go:60-81 | Every other login is admitted if and only if it would be without the logout |
| StepUp.StepKeepsInv | internal/auth/sso_stepup.go:72-231 | A session never has more than one challenge, and a verified challenge was opened |
| StepUp.OpenedIsNeverReplaced | internal/auth/sso_stepup.go:79-92 | An opened, unexpired challenge outlasts every step that does not cancel, consume or delete it with its session, and a new one for its session is refused |
| StepUp.GrantIsOneShot | internal/auth/sso_stepup.go:120-231 | Over every run an admitted request consumes a challenge the same session asked for, for the same action and scope, then opened, then had verified by signing on to its own account no earlier than it asked and less than a minute before, and no challenge admits two |
| SsoTables.ChallengeFollows | internal/auth/sso_stepup.go:72-231 | Every step of a challenge commits if and only if it may, and leaves every challenge as that step should |
| SsoServer.Server.ApplyLogout | internal/auth/sso_logout.go:18-83 | Pruning, admission and both revocations follow the specification or change nothing: the logout applies if and only if it is in time, configured and not on record, and then exactly the sessions it names, and the devices their users paired from them, are ended |
| SsoServer.Server.MintSession | internal/auth/sso_session.go:27-58 | A minted session is new, live, and outside the revocation scope of every logout on record |
| SsoServer.Server.AskStepUp | internal/auth/sso_stepup.go:72-118 | Minting a challenge follows the specification |
| SsoServer.Server.CompleteStepUp | internal/auth/sso_stepup.go:164-205 | Verifying a challenge follows the specification |
| SsoServer.Server.ConsumeStepUp | internal/auth/sso_stepup.go:207-231 | A consumed challenge is restored when session or proof fails |
| Upload.StepKeepsInv | internal/httpapi/upload_routes.go:198-278 | Every step of chunk handlers, crashes, aborts and finalizes keeps the file and the counters in step with the accepted chunks |
| Upload.AcceptedChunksAreTheFile | internal/httpapi/upload_routes.go:252-273 | Over every run the file's first received_bytes bytes are the accepted chunks in order and received_bytes is min(next*chunk, declared) |
| Upload.PublishedIsTheUpload | internal/httpapi/upload_routes.go:357-372 | Over every run whatever a finalize publishes is all the accepted chunks, in order, under their own digest |
| Upload.RepeatIsRecognized | internal/httpapi/upload_routes.go:211-233 | A repeated chunk changes nothing, and succeeds if and only if it is the last accepted one byte for byte |
| Upload.NextChunkIff | internal/httpapi/upload_routes.go:236-245 | A next chunk goes on if and only if the upload is live and pending with its file and the chunk is full, or all that is missing; one of another length ends the upload |
| Upload.ResumeSucceeds | internal/httpapi/upload_routes.go:187-278 | After any run that leaves the upload pending and idle with its file, crashes included, sending the rest of the content from the next chunk on is accepted to the end and leaves exactly the content |
| Upload.UploadSucceeds | internal/httpapi/upload_routes.go:187-372 | Any content in chunks of any size, sent in order to a new upload, is accepted whole and published as exactly that |
| Blobstore.Temp.Write | internal/blobstore/blobstore.go:47-54 | Writing appends, and the running hash has seen exactly the file |
| Blobstore.Temp.Truncate | internal/blobstore/blobstore.go:183-199 | Truncating cuts the file and hashes what stays |
| Blobstore.Temp.Finalize | internal/blobstore/blobstore.go:58-96 | Success publishes exactly the file's bytes under their digest, new or already there; failure publishes nothing; every blob stays named by its digest |
| Blobstore.Session.PatchChunk | internal/httpapi/upload_routes.go:187-278 | The chunk handler, with no one beside it, is the composition of the modelled steps, for every index and body |
| Link.StepOfRequest | internal/httpapi/link_routes.go:186-428 | One step changes a request only as its route may: fields are set once, in order, by a session of the request's user before expiry |
| Link.AtMostThreePending | internal/httpapi/link_routes.go:209-219 | At no time in any run does a user have more than three unexpired requests |
| Link.BundleWasEarned | internal/httpapi/link_routes.go:265-428 | Over every run a bundle that leaves goes to the creating session, after a claim by another session of the same user, whose key the request shows, the revealing of the committed key and approval by the claimer, in that order and before expiry |
| Link.BundleLeavesOnce | internal/httpapi/link_routes.go:412-424 | Over every run no request's bundle leaves twice |
| LinkTables.StepFollows | internal/httpapi/link_routes.go:186-428 | Every step commits if and only if it may, and leaves every request as that step should: the claimer's key, the revealed key, the bundle, or gone |
| LinkTables.LinkSucceeds | internal/httpapi/link_routes.go:186-428 | A link asked for, claimed, revealed, approved and collected by two live sessions of one user within ten minutes succeeds at every step, each side seeing the other's key, and yields the approved bundle |
| LinkServer.Server.CreateLink | internal/httpapi/link_routes.go:186-229 | Creation replaces the session's own request and follows the specification |
| LinkServer.Server.ClaimLink | internal/httpapi/link_routes.go:265-286 | A successful claim is by another live session of the same user, keeps every request well formed, and is the last: no session can claim the request again |
| LinkServer.Server.RevealLink | internal/httpapi/link_routes.go:289-333 | Revealing follows the specification, and reports a wrong key exactly when it ended the request |
| LinkServer.Server.ApproveLink | internal/httpapi/link_routes.go:357-378 | An approved request's key is the committed one and its approver is not its creator; from then on only the creator, before expiry, can take that bundle and nobody can replace it |
| LinkServer.Server.CollectLink | internal/httpapi/link_routes.go:383-428 | The bundle is handed out exactly when its row goes |
| Keyring.KeyringKeepsRing | cmd/kynotes-mcp/trust.go:151-261 | Opening never changes a stored digest or lowers the mark, and every ring key has its digest stored and lies at or below the mark |
| Keyring.RingKeysAreTrusted | cmd/kynotes-mcp/trust.go:147-150 | Every ring key comes from the bridge itself or a current steward matching its pin, or lies strictly below the mark and opens from an identity pinned before; pins are added only for current stewards on first contact |
| KeyringComplete.OpensIff | cmd/kynotes-mcp/trust.go:217-227 | Opening succeeds if and only if no row is from a current steward who shows another key than the pin, stored or set by an earlier row of the call |
| KeyringComplete.RingIsComplete | cmd/kynotes-mcp/trust.go:151-261 | The ring has, for each generation, the key of the first row that offers one agreeing with the stored digest, from the bridge itself or the current steward it names; where none does, below the mark, that of the first row put off which an earlier pin opens so; no other key; the mark is the highest offered generation or the old one, and exactly the stewards of accepted rows not pinned before are |
| Bridge.PinnedKeys | cmd/kynotes-mcp/trust.go:157-162 | The loop over pins collects exactly the well-formed ones |
| Bridge.FindSteward | cmd/kynotes-mcp/trust.go:211-215 | The member loop finds the last current steward with the sender's identity |
| Bridge.ScanRows | cmd/kynotes-mcp/trust.go:192-247 | The loop over rows computes the specified scan, stopping at the first changed pin |
| Bridge.OpenRing | cmd/kynotes-mcp/trust.go:151-261 | The whole function computes the specified ring for an order of all well-formed pins: it is refused if and only if a row clashes with a pin, and otherwise holds every key due, from rows and from history, and no other |
| Bridge.RefreshRises | cmd/kynotes-mcp/notebook.go:59-142 | A refresh, wherever it stops, only raises memory and file, and uses only keys it saved |
| Bridge.RefreshOutcome | cmd/kynotes-mcp/notebook.go:59-142 | A refresh succeeds if and only if nothing reported lies below what was seen, members and rows came, the keyring opens, the name does not regress and both saves work; then it uses exactly the opened ring and has saved exactly what it remembers, and otherwise the keys in use stay |
| Bridge.SavedStateOnlyRises | cmd/kynotes-mcp/notebook.go:59-142 | Across any refreshes and restarts, of one notebook or several, saved pins stay, floors and marks never fall and stored digests never change |
| Bridge.MemoryOnlyRises | cmd/kynotes-mcp/notebook.go:59-142 | Within one process the same holds of what is remembered |
| Bridge.UsedKeysNeverChange | cmd/kynotes-mcp/notebook.go:57-58 | The key used for a notebook's generation is the same whenever one is used, restarts and other notebooks between or not, and never above the saved mark |
| Bridge.SettledIffSaved | cmd/kynotes-mcp/notebook.go:114-136 | Whenever the bridge has an own row that opens to another key, a remembered digest stays through every later refresh and restart if and only if it is saved |
| Bridge.UnsavedDigestMayChange | cmd/kynotes-mcp/notebook.go:121-136 | A run in which a digest remembered but not saved differs after a restart |
| Bridge.Notebook.RefreshKeys | cmd/kynotes-mcp/notebook.go:59-142 | The refresh method's statements, early returns included, follow the specification |

## Left out

- HTTP plumbing, JSON request decoding, CSRF, cookies, rate limits, logging and audit rows: a handler is its transaction and its guards.
- Sessions and step-up in front of the team-key routes, the one-reset-a-day limit and the recovery wrap checks: the caller of a team-key step is a user already admitted.
- Cryptography and external packages: envelopes, digests and signatures are opaque values, opening an envelope an arbitrary function.
- Quota as a bound: upload admission reads it outside the write transaction, so it is no invariant of runs; a save's own check is an input, as are the write gate and role it meets.
- Per-device history: revoking a paired device deletes its envelopes without a new generation, so history claims are per member and per identity.
- Sequence counters beyond 2^63-1, where SQLite would fall back to floating point: such a write is refused in the model.
- Device pairing's key revival, expiry of sessions in the logout model, and directory synchronisation: a directory revocation and a role-change cutoff are one table of cutoffs.
- CellLayout.CleanupRowPadding: the page header's usable size and text encoding, and the selected row, are inputs; sizes 257 to 479, which SQLite never uses, are covered by soundness but not by completeness.
- CleanupSlots.ReservationsVerify: the records of filled slots are CleanupAudit.VerificationFailsIff's.
- CleanupRecord.RecordReadsBack: the reader takes the members in the order they are written, without white space between them; other JSON for the same record is never stored.
- CleanupTables.StepFollows: how much padding a closing leaves is the row search's, in CellLayout.
- CleanupSlots.ServerDeletionFailsIff: an author ID longer than a minted one, as an old account may have, is outside it; CleanupSlots.DeletionFailsIff then decides.
- Non-ASCII white space around a slot's JSON: no payload contains any.
- ContentServer.Server.RunGC: runs with no request beside it; interleavings are steps of ContentModel, and its expired uploads, sessions, invitations and links belong to the other models or to none.
- Legacy idempotency keys stored without a version, and the use of one key for two pages: a replay answers with what the key remembers.
- Conflicts' bytes after they are resolved: nothing keeps their files. Previews are kept while an attachment refers to them, but nothing makes sure they are there when it begins to.
- Upload.StepKeepsInv: one process; the lock map itself is a single optional holder.
- The bridge's object cache, page decryption and Markdown rendering.
- Backup, mirror, restore, web push, administration and the web user interface.
