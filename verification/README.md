# Limbo server: a verified model

This project models the parts of a Minecraft limbo server (Rust) that carry the most state, and proves what they are
meant to do. It is written in Dafny 4.11 and has no dependencies; `dafny verify dfyconfig.toml` checks all of it.

Code that works step by step in Rust is a method or a class here, proved against a function or a relation that says
what it must compute; the theorems are lemmas about those functions.

| Component | Files | Main results |
|---|---|---|
| Light | `LightVolume`, `LightQueue`, `LightFlood`, `WorldLight`, `LitCells` | propagation computes the flood of its seeds (the best light path to each cell) with a bounded queue; the nibble a client gets for a cell is the cell's light, as its own block and its neighbours determine it |
| Blocks | `Schematics`, `PackedData`, `ChunkProcessors`, `WorldSections` | every section decodes to the schematic's blocks; exactly when a reused processor does not |
| Chunk order | `Spiral` | the iterator lists the square around its centre once, ring by ring |
| Numbers and frames | `VarInts`, `PacketStreams` | round trips, shortest form, frames recovered across the switch to compression |
| NBT | `Texts`, `Characters`, `NbtValues`, `NbtWriting`, `NbtReading`, `NbtRoundTrip`, `NbtLimits`, `NbtRereading` | reading what was written gives its normal form and the rest; what can be written; no truncated data is accepted; what is read can be written and read again unchanged |
| Connection | `Packets`, `ClientStates`, `Handlers`, `PlayBatches`, `Connections`, `ConnectionTraces`, `Admissions`, `ConfigurationTraces`, `Timers` | over every run, packets follow the order of states, versions stay fixed, compression starts with its announcement; exactly when play starts with its join packet, and when it follows a success packet |
| Forge | `ForgeReplay`, `ForgeSessions`, `ForgeRecorder`, `ForgeRecordings`, `ForgeRoundTrip` | a replay under any answers; a recording is the projection of the upstream's requests; exactly when recording a replay gives the recording back |
| Online players | `OnlineCounter` | the shared counter under every interleaving of connections |
| Status cache | `StatusCache` | a stored value is never lost under every interleaving of calls |
| Commands | `CommandTrees` | the node array is a tree that reads back as the commands; exactly when its run flags are right |

`Prelude` and `Bits` hold shared types and the bit operations, written out on natural numbers of a given width.

## Where the code does not do what it says

- `prepare_for_next_chunk` (`crates/pico_structures/src/chunk_processor.rs:37-42`) clears the palette before it walks it
  to reset the lookup table, so nothing is reset. A world uses each processor once, and then sections are right;
  `ShowsExactlyWhenNotStale` gives the exact condition for any table and `SecondUseFails` the failing family.
- The compressed writer (`crates/net/src/packet_stream.rs:150-153`) does not check the maximum frame length that every
  reader enforces. `FrameRoundTrip` says exactly which frames come back, `StreamRoundTrip` which streams, and
  `LongFrameIsRefused` shows one that does not.
- An argument's run flag (`crates/minecraft_packets/src/play/commands_packet.rs:120-121`) compares two neighbouring
  indices, whose difference is always one. `FlagsAreRightWhen` gives the exact condition, `TwoRequiredCannotRun` a
  command that gets it wrong.
- A recorded channel without a colon is replayed as `fml:handshake`
  (`pico_limbo/src/handlers/login/login_start.rs:97-103`), so a recording of the replay differs
  (`EmptyChannelIsLost`).
- Replayed queries go out before compression, and the plain writer refuses a frame over 2 097 151 bytes
  (`crates/net/src/packet_stream.rs:116-119`). The refusal is not fatal (`pico_limbo/src/server/network.rs:130-141`), so
  the step is never sent and the replay stands still (`OversizedStepIsNotSent`). `RecordingInvertsReplay` gives the
  exact condition, for both defects, under which a recording is replayed faithfully.
- A failed write that is not fatal ends its batch but not the connection (`pico_limbo/src/server/network.rs:130-141`,
  `179-188`). If it hits the batch that leads into play before the join packet, the client is never told to join
  (`JoinCanBeCutOff`); `PlayStartsWithJoin` says exactly when it is.
- The acknowledgement of a login is taken whether or not login has succeeded
  (`pico_limbo/src/handlers/login/login_acknowledged.rs:20-36`), so a client can be in play without a success packet and
  without a profile (`LoginCanBeSkipped`). `PlayFollowsSuccessWhen` says exactly when one was queued, and
  `PlayIsAdmittedWhen` when, behind a proxy, it named a profile the proxy vouched for.
- The status cache says a stale ping triggers one refresh while others get the old value
  (`pico_limbo/src/forge/status_proxy.rs:12-17`), and that a response without data spares the upstream the next pings
  (lines 117-119). In the code all pings on a stale cache fetch, whatever is stored (`StaleGetsAllAsk`, and
  `StaleValueIsFetchedTwice` for a value that has gone stale); `HitsAreRecent` gives the exact condition for a ping that
  asks no one. A response without data spares nothing as long as no value is stored (`ResponseWithoutData`).

## Model

| member | source | states |
|---|---|---|
| LightVolume.IndexInRange | crates/pico_structures/src/world.rs:185-187 | the index of a cell of the volume lies in it, and the cell is computed back from it (lines 251-253) |
| LightVolume.CellInVolume | crates/pico_structures/src/world.rs:251-253 | every index below the volume is that of a cell in it: with the above, indexing is a bijection |
| LightVolume.NeighborFacts | crates/pico_structures/src/world.rs:261-275 | adding a direction's offset within bounds leads to the neighbouring cell, and the opposite direction leads back |
| LightVolume.FloodIsUnique | crates/pico_structures/src/world.rs:189-190 | the specification of light, the best level any path of transparent cells brings, has one solution |
| LightVolume.FloodFromSettled | crates/pico_structures/src/world.rs:282-289 | reached levels that no neighbour can raise any more are the flood |
| LightQueue.UnpackPack | crates/pico_structures/src/world.rs:190-193 | a queue word gives back index, level and direction mask, and fits 42 bits |
| LightQueue.ExcludeOppositeMasks | crates/pico_structures/src/world.rs:209-221 | each mask leaves out exactly the direction back |
| LightFlood.RaiseCovers | crates/pico_structures/src/world.rs:288-297 | raising a neighbour and masking the way back leaves no light that some unread entry does not still offer |
| LightFlood.RaiseNeighbor | crates/pico_structures/src/world.rs:282-297 | one raise keeps the invariant of the work loop, stale entries included |
| LightFlood.RoomBound | crates/pico_structures/src/world.rs:291-296 | the levels a volume can still queue are at most 13 for each cell |
| LightFlood.SourcesAreBright | crates/pico_structures/src/world.rs:223-232 | the sources are the cells of level two or more |
| LightFlood.SeedQueue | crates/pico_structures/src/world.rs:223-232 | the first entries are the cells brighter than one, in all directions, and cover all light |
| LightFlood.OfferLight | crates/pico_structures/src/world.rs:237-298 | reading one entry keeps the invariant, and queues no more than it uses up of the room |
| LightFlood.FloodFromSeeds | crates/pico_structures/src/world.rs:234-299 | the loop ends with every cell settled and every level really reached |
| LightFlood.PropagateLight | crates/pico_structures/src/world.rs:194-300 | the volume becomes the flood of what it held, with at most one entry for each source and 13 for each cell |
| WorldLight.ComputeTransparency | crates/pico_structures/src/world.rs:99-108 | each index holds the transparency of its cell |
| WorldLight.SeedColumn | crates/pico_structures/src/world.rs:117-134 | a column is seeded from the top: full sky down to the first opaque block, and emitted light |
| WorldLight.SeedVolumes | crates/pico_structures/src/world.rs:110-144 | both volumes hold the seeds of every cell |
| WorldLight.FloodCongruence | crates/pico_structures/src/world.rs:194-200 | light depends on seeds and transparent cells inside the volume only |
| WorldLight.CalculateLight | crates/pico_structures/src/world.rs:87-160 | sky and block light are the floods of the schematic's open columns and emitters |
| WorldLight.PackedLocalIsIndex | crates/pico_structures/src/world.rs:347-349 | the shifted and or-ed local index is y * 256 + z * 16 + x |
| WorldLight.PutNibble | crates/pico_structures/src/world.rs:348-355 | or-ing in one level changes that nibble and no other |
| WorldLight.FillSection | crates/pico_structures/src/world.rs:320-358 | a section's nibbles are the levels of its 4096 cells |
| WorldLight.ConvertToChunkSections | crates/pico_structures/src/world.rs:303-366 | each column's sections show the volume's light |
| WorldLight.SectionsAreInVolume | crates/pico_structures/src/world.rs:87-93 | every cell of every section of the world lies in the lit volume |
| WorldLight.DefaultIsNeverNeeded | crates/pico_structures/src/world.rs:338-345 | so a section's levels are the same whatever the default level for cells outside is |
| WorldLight.BuildLight | crates/pico_structures/src/world.rs:72-82 | reading a cell's nibble through the getters gives its flood level, for every cell of the world |
| WorldLight.LightOfCell | crates/pico_structures/src/world.rs:415-437 | the column getter and the nibble index of a world cell lead to that cell's level |
| LitCells.SolidIsDark | crates/pico_structures/src/world.rs:99-134 | in a built world, a block that stops light reads no sky light, and the block light it emits |
| LitCells.OpenIsBright | crates/pico_structures/src/world.rs:117-129 | a cell with nothing but transparent blocks from it to the top reads sky level 15 |
| LitCells.LightSpreads | crates/pico_structures/src/world.rs:282-289 | a transparent cell reads at most one level below a neighbour, for sky and block light |
| LitCells.LightComesFromSomewhere | crates/pico_structures/src/world.rs:282-297 | any other light than the sky's and the block's own comes from a neighbour one level brighter |
| LitCells.LevelStandsAt | crates/pico_structures/src/world.rs:343-356 | a cell's level is the low half of its byte for even x and the high half for odd x, bytes in y, z, x order |
| LitCells.NothingOutside | crates/pico_structures/src/world.rs:415-437 | light is read for the cells of the world's sections and no other |
| PackedData.WordAppend | crates/pico_structures/src/pack_direct.rs:17-31 | or-ing in a masked and shifted entry extends the word by that entry |
| PackedData.PackDirect | crates/pico_structures/src/pack_direct.rs:3-34 | the words hold the entries in order, as many whole ones a word as fit |
| PackedData.PackedEntry | crates/pico_structures/src/pack_direct.rs:3-34 | shifting and masking reads back every entry, cut to its width |
| PackedData.EntryStandsAt | crates/pico_structures/src/pack_direct.rs:9-31 | for the k entries that fit a word, entry i is at bit (i mod k) * bits of word i / k |
| PackedData.PackedIsTight | crates/pico_structures/src/pack_direct.rs:9-31 | no word could be spared, for any number of entries that fits a word |
| PackedData.PackedPadding | crates/pico_structures/src/pack_direct.rs:17-31 | bits of a word beyond its entries are zero |
| Schematics.DataAt | crates/pico_structures/src/schematic.rs:123-136 | air outside and where data is missing; with all data, every position inside has a block of its own, from whose index it is computed back |
| ChunkProcessors.BitsNeededIsLeast | crates/pico_structures/src/chunk_processor.rs:119-121 | the bits for n states are enough, and one fewer is not; one bit for one state |
| ChunkProcessors.BitsNeededFor256 | crates/pico_structures/src/chunk_processor.rs:88-116 | eight bits are enough for exactly up to 256 states |
| ChunkProcessors.ScanFacts | crates/pico_structures/src/chunk_processor.rs:50-84 | after a scan every id's table entry is its place in the palette, or the stale one from before |
| ChunkProcessors.ChunkProcessor.ResetEntries | crates/pico_structures/src/chunk_processor.rs:39-41 | the walk resets the table's entries for the ids it is given, and no other |
| ChunkProcessors.ChunkProcessor.PrepareForNextChunk | crates/pico_structures/src/chunk_processor.rs:37-42 | the palette is emptied first, so the walk leaves the table as it is |
| ChunkProcessors.ChunkProcessor.ScanSection | crates/pico_structures/src/chunk_processor.rs:50-84 | the blocks in order, whether they are all one, the palette and the table |
| ChunkProcessors.ChunkProcessor.ProcessSection | crates/pico_structures/src/chunk_processor.rs:44-116 | the container: one id, indices of the least width from four bits, or all ids beyond 256 |
| ChunkProcessors.ShowsExactlyWhenNotStale | crates/pico_structures/src/chunk_processor.rs:37-116 | a container shows its section if and only if it has one block, over 256 fresh ids, or no stale id |
| ChunkProcessors.SecondUseFails | crates/pico_structures/src/chunk_processor.rs:37-42 | processing a mixed section again with the table it left shows it wrongly |
| WorldSections.SectionIndexIsBijection | crates/pico_structures/src/world.rs:396-398 | a section's index lies in the list and gives the section back |
| WorldSections.SectionOfIsInverse | crates/pico_structures/src/world.rs:43-47 | every index of the list is that of its section |
| WorldSections.BuildSections | crates/pico_structures/src/world.rs:40-52 | every list entry shows the blocks of its section |
| WorldSections.WorldRefinesSchematic | crates/pico_structures/src/world.rs:391-401 | what a section decodes to at a local position is the schematic's block there, padding included; other sections are refused |
| WorldSections.SchematicIsCovered | crates/pico_structures/src/world.rs:36-38 | every position of the schematic lies in some section |
| WorldSections.SectionsAreNeeded | crates/pico_structures/src/world.rs:36-38 | the sections along an axis cover it, and one fewer would not |
| Spiral.RankWithin | pico_limbo/src/handlers/play/send_chunks_circularly.rs:70-75 | the first (2r+1)^2 ranks are those of the points within distance r |
| Spiral.RankIsInjective | pico_limbo/src/handlers/play/send_chunks_circularly.rs:69-97 | no two points share a rank |
| Spiral.MoveRank | pico_limbo/src/handlers/play/send_chunks_circularly.rs:81-94 | a step along the current leg leads to the next rank |
| Spiral.SpiralIterator.Next | pico_limbo/src/handlers/play/send_chunks_circularly.rs:69-97 | yields the point of the next rank, or nothing for ever beyond the radius |
| Spiral.SpiralIterator.CountersAreI32 | pico_limbo/src/handlers/play/send_chunks_circularly.rs:38-48 | no field leaves the 32-bit range |
| Spiral.RankedEnumerates | pico_limbo/src/handlers/play/send_chunks_circularly.rs:66-98 | points listed by rank are the square, each once, by non-decreasing distance |
| Spiral.Drain | pico_limbo/src/handlers/play/send_chunks_circularly.rs:66-98 | draining the iterator enumerates the square of its radius |
| VarInts.RoundTrip | crates/pico_binutils/src/var_int.rs:17-79 | every 32- or 64-bit number is read back from its bytes, leaving the rest, in at most 5 or 10 bytes |
| VarInts.EncodeIsShortest | crates/pico_binutils/src/var_int.rs:64-79 | no shorter bytes are read as the same number |
| VarInts.EncodedBytes | crates/pico_binutils/src/var_int.rs:64-79 | byte i holds bits 7i to 7i + 6, and all but the last have the high bit |
| VarInts.KindsAre | crates/pico_binutils/src/var_long.rs:17-83 | the numbers of the two kinds are those of 32 and of 64 bits |
| VarInts.ReadFailsWhen | crates/pico_binutils/src/var_int.rs:17-38 | reading fails if and only if the bytes end first, or the number does not end within five bytes, or ten |
| VarInts.AddSegment | crates/pico_binutils/src/var_int.rs:25-30 | or-ing in seven shifted bits adds one more byte's part, modulo the register |
| VarInts.BinaryReader.ReadVar | crates/pico_binutils/src/var_int.rs:17-38 | the loop reads what the format says, and reports early ends and overlong numbers |
| VarInts.WriteVar | crates/pico_binutils/src/var_long.rs:65-83 | the loop writes the format's bytes |
| VarInts.ArrayRoundTrip | crates/pico_structures/src/schematic_file.rs:140-166 | any list of 32-bit numbers is read back from the concatenation of its encodings |
| VarInts.ArrayFailsWhen | crates/pico_structures/src/schematic_file.rs:149-162 | after any items, a number that does not end within five bytes is an error, by whether there were five |
| VarInts.DeserializeItem | crates/pico_structures/src/schematic_file.rs:149-162 | one item agrees with the number reader, and fails exactly when that does |
| VarInts.DeserializeVarIntArray | crates/pico_structures/src/schematic_file.rs:140-166 | the nested loops decode the array item by item |
| PacketStreams.PrefixDecides | crates/net/src/packet_stream.rs:181-192 | once a number ends, parsing the bytes so far gives what decoding the stream at once gives |
| PacketStreams.FiveContinuations | crates/net/src/packet_stream.rs:194-196 | after five continuation bytes the length is too long |
| PacketStreams.PacketStream.ReadVarInt | crates/net/src/packet_stream.rs:178-197 | re-parsing the growing prefix gives the length of the whole stream and uses up exactly its bytes; each bad length has its own error |
| PacketStreams.PacketStream.ReadPacket | crates/net/src/packet_stream.rs:51-110 | reads one frame in the format in force |
| PacketStreams.PacketStream.WritePacket | crates/net/src/packet_stream.rs:59-159 | writes one frame in the format in force, or refuses it |
| PacketStreams.MaximumTakesThreeBytes | crates/net/src/packet_stream.rs:116-119 | the maximum is the greatest length that takes at most three bytes |
| PacketStreams.CompressedWhen | crates/net/src/packet_stream.rs:133-148 | a packet is compressed if and only if it reaches the threshold, with its length or a zero in front |
| PacketStreams.ContentIsPacketWhen | crates/net/src/packet_stream.rs:88-110 | a compressed frame is accepted as a packet if and only if it is zero and that packet, or its length and data that decompresses to it |
| PacketStreams.FrameRoundTrip | crates/net/src/packet_stream.rs:75-159 | a written frame is read back if and only if its content is within the reader's maximum |
| PacketStreams.LongFrameIsRefused | crates/net/src/packet_stream.rs:150-153 | a packet of the greatest length under the compression threshold is written, and its frame refused |
| PacketStreams.StreamRoundTrip | pico_limbo/src/server/network.rs:177-189 | whatever packets were framed, they come back one by one across the switch to compression if and only if no frame is over the maximum, for every threshold and level |
| NbtValues.BigEndianRoundTrip | pico_libraries/pico_nbt/src/ser.rs:27-39 | big-endian numbers are read back |
| NbtValues.FromBigEndianFirst | pico_libraries/pico_nbt/src/de.rs:54-74 | the first byte is the most significant |
| Characters.TextsAreEncodings | pico_libraries/pico_nbt/src/de.rs:35-43 | bytes are accepted as text if and only if they encode Unicode scalar values in UTF-8 |
| Characters.EncodingIsUnique | pico_libraries/pico_nbt/src/de.rs:35-43 | of one list of scalar values only |
| Characters.StringIsReadWhen | pico_libraries/pico_nbt/src/de.rs:35-43 | a string is read if and only if a length of two bytes, and that many bytes that encode scalar values, are there |
| NbtWriting.NbtWriter.WriteString | pico_libraries/pico_nbt/src/ser.rs:23-30 | a length of two bytes and the text, or an error beyond 65535 bytes |
| NbtWriting.NbtWriter.WriteValue | pico_libraries/pico_nbt/src/ser.rs:32-123 | the loops append the bytes of the value, or those up to the first error |
| NbtWriting.NbtWriter.WriteWrapped | pico_libraries/pico_nbt/src/ser.rs:59-79 | elements of a mixed list are written as compounds with one unnamed entry |
| NbtWriting.NbtWriter.WriteRoot | pico_libraries/pico_nbt/src/ser.rs:125-132 | tag, name unless nameless, value |
| NbtReading.NbtReader.ReadString | pico_libraries/pico_nbt/src/de.rs:35-43 | the text at the front, or the error for missing or invalid bytes |
| NbtReading.NbtReader.ReadNumbers | pico_libraries/pico_nbt/src/de.rs:54-74 | the numbers at the front, one after the other |
| NbtReading.NbtReader.ReadValue | pico_libraries/pico_nbt/src/de.rs:76-114 | the value at the front, leaving what follows it |
| NbtReading.NbtReader.ReadCompound | pico_libraries/pico_nbt/src/de.rs:97-109 | the entries up to the end tag; a repeated name keeps its place and takes the last value |
| NbtReading.NbtReader.ReadRoot | pico_libraries/pico_nbt/src/de.rs:117-130 | tag, name unless nameless, value |
| NbtRoundTrip.Norm | pico_libraries/pico_nbt/src/value.rs:28-43 | the normal form keeps the tag id |
| NbtRoundTrip.ValueRoundTrip | pico_libraries/pico_nbt/src/de.rs:76-114 | reading any written value followed by any bytes gives its normal form and those bytes |
| NbtRoundTrip.RootRoundTrip | pico_libraries/pico_nbt/src/de.rs:117-130 | the same for a named or nameless root |
| NbtRoundTrip.NormIdempotent | pico_libraries/pico_nbt/src/ser.rs:60-79 | normalising twice is normalising once |
| NbtRoundTrip.NormIsIdentity | pico_libraries/pico_nbt/src/ser.rs:85-94 | a value is its own normal form if and only if it holds no mixed list |
| NbtRoundTrip.NormWritesTheSame | pico_libraries/pico_nbt/src/ser.rs:59-94 | the normal form is written as the value itself is |
| NbtLimits.WritesExactlyWhatFits | pico_libraries/pico_nbt/src/ser.rs:23-122 | writing succeeds if and only if all lengths fit and mixed lists are allowed or absent |
| NbtLimits.RootWritesExactlyWhatFits | pico_libraries/pico_nbt/src/ser.rs:125-132 | so does writing a root, whose name must fit too unless it is nameless |
| NbtLimits.ValueExtends | pico_libraries/pico_nbt/src/de.rs:76-114 | what is read does not depend on what follows |
| NbtLimits.PrefixIsRejected | pico_libraries/pico_nbt/src/de.rs:117-130 | no strict prefix of written data is accepted |
| NbtRereading.InsertKeepsDistinct | pico_libraries/pico_nbt/src/de.rs:98-108 | inserting an entry leaves every name at one place |
| NbtRereading.ReadIsCanonical | pico_libraries/pico_nbt/src/de.rs:76-114 | whatever is read has the tag asked for, no name twice and no mixed list at any depth, and lengths that can be written |
| NbtRereading.ReadIsWritable | pico_libraries/pico_nbt/src/de.rs:117-130 | any root that is read can be written again, with mixed lists allowed or not, and is then read as the very same value, leaving what follows |
| ForgeReplay.SplitOnceIsShown | pico_limbo/src/handlers/login/login_start.rs:97-103 | a channel splits at its first colon, and shows as it was |
| ForgeReplay.ChannelIsKept | pico_limbo/src/handlers/login/login_start.rs:92-103 | a replayed channel is the recorded one if and only if that has a colon |
| ForgeReplay.AnsweredThenComplete | pico_limbo/src/forge/replay.rs:63-95 | answering the pending id frees the session for the next step, any other id does nothing, and there is no next step exactly when the session is complete |
| ForgeReplay.Fml2ReplaySession.IsComplete | pico_limbo/src/forge/replay.rs:63-65 | all steps are out and none is pending |
| ForgeReplay.Fml2ReplaySession.TakeNextStep | pico_limbo/src/forge/replay.rs:70-86 | the next step under a new id that is now pending, or nothing |
| ForgeReplay.Fml2ReplaySession.ConsumeResponse | pico_limbo/src/forge/replay.rs:93-95 | the step an id stands for, no longer pending |
| Handlers.HandleIntention | pico_limbo/src/handlers/handshake.rs:14-149 | version, next state, forge kind, and who is let in, kicked or refused |
| Handlers.SendPlayPackets | pico_limbo/src/handlers/configuration.rs:132-254 | the packets of a fresh player by version and settings, play entered only if none fails |
| Handlers.SendOverlays | pico_limbo/src/handlers/configuration.rs:209-217 | action bar, skin, tab list, title and boss bar |
| Handlers.SendChunks | pico_limbo/src/handlers/configuration.rs:219-248 | the packets around the chunks, and the look-ups that can fail |
| Handlers.SendLoginSuccess | pico_limbo/src/handlers/login/login_start.rs:115-145 | compression, success packet, and play where there is no configuration |
| Handlers.EnqueueNextForgeStep | pico_limbo/src/handlers/login/login_start.rs:69-90 | the session's next step as a query, if there is one |
| Handlers.HandleLoginStart | pico_limbo/src/handlers/login/login_start.rs:18-63 | a replay, a question to the proxy, a kick, or login success |
| Handlers.HandleCustomQueryAnswer | pico_limbo/src/handlers/login/custom_query_answer.rs:14-82 | the next step or the end of a replay, or the proxy's answer |
| Handlers.HandleLoginAcknowledged | pico_limbo/src/handlers/login/login_acknowledged.rs:20-127 | configuration and its packets in order, for versions that have it |
| Handlers.HandlePacket | pico_limbo/src/server/packet_registry.rs:364-389 | each packet goes to its handler |
| PlayBatches.IntentionLeads | pico_limbo/src/handlers/handshake.rs:14-149 | for every handshake: state, version, profile, kick, and who is let in, if and only if |
| PlayBatches.VersionIsSpoken | pico_limbo/src/handlers/handshake.rs:20-40 | a known version is spoken as it is, an unknown one as the oldest or the newest, or refused |
| PlayBatches.PlayIsListed | pico_limbo/src/handlers/configuration.rs:154-248 | the packets of a fresh player, one by one, by protocol number and settings |
| PlayBatches.JoinSucceedsWhen | pico_limbo/src/handlers/configuration.rs:55-95 | every version has a join packet, if its look-ups succeed |
| PlayBatches.PlayIsEnteredWhen | pico_limbo/src/handlers/configuration.rs:132-254 | play is entered if and only if the look-ups of the version succeed, and what failure ends the connection |
| PlayBatches.SuccessIsListed | pico_limbo/src/handlers/login/login_start.rs:115-140 | login ends with the success packet of the version, after an announcement of compression |
| PlayBatches.LoginSucceedsWhen | pico_limbo/src/handlers/login/login_start.rs:115-145 | where login leads by version, and when it fails |
| PlayBatches.ProfileIsNamed | pico_limbo/src/server/client_state.rs:105-121 | a profile that is there keeps its id and takes the new name |
| PlayBatches.ConfigurationIsBegunWhen | pico_limbo/src/handlers/login/login_acknowledged.rs:20-127 | an acknowledgement begins configuration if and only if the version has it, and what its look-ups decide |
| PlayBatches.RequestsAreAnswered | pico_limbo/src/server/packet_registry.rs:364-389 | a status request and a ping have their answers, a plugin message and a change of abilities none |
| PlayBatches.MoveIsAnswered | pico_limbo/src/handlers/play/set_player_position_and_rotation.rs:26-70 | a player who falls is put back and told so, any other hears nothing |
| PlayBatches.ChatIsAnswered | pico_limbo/src/handlers/play/commands.rs:43-125 | what each command is answered with |
| Connections.ClientData.WritePackets | pico_limbo/src/server/network.rs:177-189 | packets are written in order up to the first failure; compression starts right after its announcement |
| Connections.ClientData.KickClient | pico_limbo/src/server/network.rs:267-299 | the disconnect packet of the state, and the end |
| Connections.ClientData.ProcessPacket | pico_limbo/src/server/network.rs:144-214 | a packet that belongs to the state is handled, its batch written, then a kick or the timers |
| Connections.ClientData.SendKeepAlive | pico_limbo/src/server/network.rs:301-314 | a keep-alive, in play only |
| Connections.ClientData.SendActionBar | pico_limbo/src/server/network.rs:316-347 | the action bar by version, in play only |
| Connections.HandleClient | pico_limbo/src/server/network.rs:236-256 | the task of a connection does what the events of its run lead to |
| ConnectionTraces.PlayAdds | pico_limbo/src/handlers/configuration.rs:154-248 | entering play appends play packets, the join packet first |
| ConnectionTraces.LoginSuccessIsSound | pico_limbo/src/handlers/login/login_start.rs:115-145 | login success keeps the order of states |
| ConnectionTraces.AcknowledgedIsSound | pico_limbo/src/handlers/login/login_acknowledged.rs:26-36 | configuration is entered from login, by versions that have it |
| ConnectionTraces.PacketIsSound | pico_limbo/src/server/packet_registry.rs:364-389 | every handler keeps the order of states, in its batch and in the state it leaves |
| ConnectionTraces.ReactionIsOrderly | pico_limbo/src/server/network.rs:216-234 | every packet, tick or failure keeps the invariant of a connection |
| ConnectionTraces.RunIsOrderly | pico_limbo/src/server/network.rs:236-256 | so does every run, write failures included |
| ConnectionTraces.TraceNeverGoesBack | pico_limbo/src/server/network.rs:144-214 | over every run: login, then configuration, then play packets; status alone; configuration packets only for versions that have it |
| ConnectionTraces.LaterIsFurther | pico_limbo/src/handlers/handshake.rs:20-60 | after the handshake the version is fixed, and no state is left for an earlier one |
| ConnectionTraces.StatesAreEnteredInTurn | pico_limbo/src/handlers/login/login_start.rs:141-143 | play is entered from configuration by versions that have it and from login by the others |
| ConnectionTraces.PlayWasEntered | pico_limbo/src/server/network.rs:144-214 | a run that is in play has an event that led into it |
| ConnectionTraces.EntryHasJoin | pico_limbo/src/handlers/configuration.rs:154-162 | that is a packet of the state before, and its batch holds the join packet, before anything else of play |
| ConnectionTraces.PlayStartsWithJoin | pico_limbo/src/handlers/configuration.rs:154-162 | the first play packet sent is the join packet, right after login success where there is no configuration, if and only if the link carried that batch up to it |
| ConnectionTraces.JoinCanBeCutOff | pico_limbo/src/server/network.rs:130-141 | after a write that fails just before it, the first play packet is a keep-alive |
| ConnectionTraces.ProxyIsAskedWhen | pico_limbo/src/handlers/login/login_start.rs:24-63 | behind a proxy, a login start leads to a question to it, or before 1.13 to a kick, if and only if nothing is replayed |
| ConnectionTraces.ProxyIsHeard | pico_limbo/src/handlers/login/custom_query_answer.rs:56-82 | the answer under the id asked with lets the profile in that the proxy vouches for, or kicks; any other changes nothing |
| ConnectionTraces.SuccessIsVouchedFor | pico_limbo/src/handlers/login/custom_query_answer.rs:56-82 | behind a proxy, over every run without a replay, success packets name profiles the proxy vouched for |
| ConnectionTraces.KickedIsClosed | pico_limbo/src/server/network.rs:191-197 | over every run, a client that is to be kicked has no open connection |
| Admissions.SuccessAnswersLogin | pico_limbo/src/handlers/login/login_start.rs:115-145 | a success packet answers a packet of the login state, and not the acknowledgement |
| Admissions.ConfigurationWasEntered | pico_limbo/src/handlers/login/login_acknowledged.rs:26-30 | a run in configuration, or in play with a version that has configuration, has an event that led into configuration |
| Admissions.SuccessComesFirst | pico_limbo/src/handlers/login/login_acknowledged.rs:26-30 | no success packet comes after that |
| Admissions.PlayFollowsSuccessWhen | pico_limbo/src/handlers/login/login_acknowledged.rs:20-36 | a run in play has queued a success packet if and only if its version has no configuration, or one came before configuration was entered |
| Admissions.PlayIsAdmittedWhen | pico_limbo/src/handlers/login/custom_query_answer.rs:56-82 | under that very condition, behind a proxy and without a replay, an answer the proxy vouches for a profile with has ended the login of that profile |
| Admissions.LoginCanBeSkipped | pico_limbo/src/handlers/login/login_acknowledged.rs:20-36 | a login acknowledged at once leads into play with no profile and no success packet |
| Admissions.ReplayHasName | pico_limbo/src/handlers/login/custom_query_answer.rs:40-55 | over every run, a client that is played a recording has a profile, so the error for one without is never met |
| ConnectionTraces.RunIsFramed | pico_limbo/src/server/network.rs:179-188 | over every run a packet is framed with compression if and only if an announcement was written before it |
| ConfigurationTraces.ConfigurationIsComplete | pico_limbo/src/handlers/login/login_acknowledged.rs:38-127 | the batch of configuration starts with the brand, holds packs, tags and as many registries as the version has, and ends with the end of configuration, once |
| ConfigurationTraces.FinishIsSentWhen | pico_limbo/src/handlers/login/login_acknowledged.rs:126-127 | over every run, the end of configuration is sent if and only if the link carried that batch; then once, after all else of the state but a disconnect |
| Timers.TimersRunWhen | pico_limbo/src/server/network.rs:200-214 | over every run, keep-alives are on if and only if a packet in play was answered in full; the action bar if it was the one that led into play |
| Timers.KeepAliveIsSent | pico_limbo/src/server/network.rs:301-314 | a keep-alive timer sends its packet if and only if it is on, in play, and the link carries it |
| Timers.ActionBarIsSent | pico_limbo/src/server/network.rs:316-347 | so does the action bar, in the packet of the version |
| Timers.ClosedForGood | pico_limbo/src/server/network.rs:216-256 | a lost connection is closed, and a closed one does nothing more |
| Timers.KickTells | pico_limbo/src/server/network.rs:267-299 | a kick sends the state's disconnect packet, if there is room, and closes the connection |
| Timers.PacketCloses | pico_limbo/src/server/network.rs:144-214 | a packet closes a connection if and only if it is refused for good, a write fails for good, or the client is kicked |
| Timers.TickCloses | pico_limbo/src/server/network.rs:301-347 | a tick closes it if and only if its write fails for good |
| ForgeSessions.AnswerMoves | pico_limbo/src/handlers/login/custom_query_answer.rs:26-55 | the pending answer brings the next step or success, any other nothing |
| ForgeSessions.ReplayFollowsAnswers | pico_limbo/src/handlers/login/custom_query_answer.rs:26-55 | under any answers: steps 0..k out in order with ids 1..k, only the last pending, success once all are answered |
| ForgeSessions.ReplayBeginsWhen | pico_limbo/src/handlers/login/login_start.rs:31-50 | a login start begins a replay if and only if the client speaks one of the two newer Forge protocols and there are recorded steps |
| ForgeSessions.GraduatesOnce | pico_limbo/src/handlers/login/login_start.rs:131-143 | a client that graduates gets exactly one success packet |
| ForgeSessions.ReplayNeedsNoProxy | pico_limbo/src/handlers/login/login_start.rs:24-49 | a replay takes precedence over forwarding to the end: who answers a recording of one step logs in under the name they gave, without the proxy being asked |
| ForgeRecorder.RequestRoundTrip | crates/minecraft_packets/src/login/custom_query_packet.rs:4-9 | a plugin request is read back from its bytes as the recorder reads it |
| ForgeRecorder.RecordLoginPhase | pico_limbo/src/forge/recorder.rs:380-500 | the loop records what the packets lead to, up to the one that ends it |
| ForgeRecorder.RecordsForgeRequests | pico_limbo/src/forge/recorder.rs:403-489 | a recording is the in-order projection of the upstream's requests that are not the proxy's; every request is answered under its id |
| ForgeRecordings.RecordEndsWhen | pico_limbo/src/forge/recorder.rs:380-500 | how a recording comes out, if and only if, from the first packet it can not go on after: the steps so far at success, or at a disconnect if there are any, or the error |
| ForgeRecordings.LoginGoesOn | pico_limbo/src/forge/recorder.rs:403-458 | until then every request is recorded or signed, and answered |
| ForgeRecordings.ProxyChannel | pico_limbo/src/forge/recorder.rs:410-412 | the proxy's channel is the one the server itself asks on, with a trailing blank or not |
| ForgeRecordings.CompressionIsFollowed | pico_limbo/src/forge/recorder.rs:391-402 | the recorder compresses by the last threshold that turns compression on |
| ForgeRecordings.ReplacedName | crates/pico_binutils/src/length_prefixed/reader.rs:15-30 | a name that is no text is read as one replacement character for each byte |
| ForgeRoundTrip.QueryIsRead | pico_limbo/src/forge/recorder.rs:403-458 | a replayed step that fits a frame is recorded as it was shown, answered for the proxy, or an error |
| ForgeRoundTrip.ReplayIsHeard | pico_limbo/src/forge/recorder.rs:380-500 | recording a replay frame by frame, with or without a secret, gives what is heard of its steps, up to one that is never sent, and needs the login at the end to arrive |
| ForgeRoundTrip.RecordingInvertsReplay | pico_limbo/src/forge/replay.rs:3-7 | it gives the recording back if and only if every channel has a colon and none is the proxy's, every query fits a frame, and the login at the end arrives |
| ForgeRoundTrip.EmptyChannelIsLost | pico_limbo/src/handlers/login/login_start.rs:100-102 | an empty channel comes back as the placeholder |
| ForgeRoundTrip.OversizedStepIsNotSent | crates/net/src/packet_stream.rs:116-119 | a step too long for a frame is never sent, and the recording never ends |
| OnlineCounter.NextIsValid | pico_limbo/src/server/network.rs:163-167 | every action of every task keeps the counter equal to the tasks that count, modulo 2^32 |
| OnlineCounter.CounterIsConserved | pico_limbo/src/server/network.rs:236-265 | under every interleaving the counter is the number of players in play whose task has counted them, and zero when all tasks are over |
| OnlineCounter.NeverUnderflows | pico_limbo/src/server_state/mod.rs:290-296 | a task that leaves finds the counter above zero |
| OnlineCounter.CountsInOnce | pico_limbo/src/server/network.rs:163-167 | a player is counted in once, when in play and not counted yet, and the counter rises by one |
| OnlineCounter.CounterWraps | pico_limbo/src/server_state/mod.rs:284-296 | the counter wraps around at 2^32 |
| OnlineCounter.AcceptIsEnabled | pico_limbo/src/server/network.rs:236-240 | a connection can be accepted at any time and counts no one yet |
| OnlineCounter.TasksGoOn | pico_limbo/src/server/network.rs:236-265 | no task is stuck: exactly one of counting in, waking up and leaving is open to it until it is over |
| OnlineCounter.WakeReacts | pico_limbo/src/server/network.rs:216-234 | a task that wakes up reacts as its connection does, and no other changes |
| StatusCache.ForgeStatusCache.BeginGet | pico_limbo/src/forge/status_proxy.rs:85-96 | the value while it is fresh, else the fallback to remember |
| StatusCache.ForgeStatusCache.FinishGet | pico_limbo/src/forge/status_proxy.rs:98-146 | the new value, else the stored one, else the fallback; a response without data leaves the value |
| StatusCache.ForgeStatusCache.FinishRefresh | pico_limbo/src/forge/status_proxy.rs:151-161 | a response is taken in, a failure changes nothing |
| StatusCache.AfterContinues | pico_limbo/src/forge/status_proxy.rs:80-169 | over every interleaving, calls that are over stay over, and a stored value stays stored |
| StatusCache.StoredIsNeverLost | pico_limbo/src/forge/status_proxy.rs:80-169 | every get that ends after a value was stored gives a value the upstream returned |
| StatusCache.FallbackIsGiven | pico_limbo/src/forge/status_proxy.rs:98-146 | over every interleaving, a get that ends with nothing stored gives the fallback in force when it began |
| StatusCache.GetGives | pico_limbo/src/forge/status_proxy.rs:98-146 | a get gives and stores its own data if it got any, else the value stored by then |
| StatusCache.InactiveGivesNothing | pico_limbo/src/forge/status_proxy.rs:80-83 | an inactive cache asks no one and gives nothing |
| StatusCache.RefreshAsks | pico_limbo/src/forge/status_proxy.rs:151-161 | a refresh always asks, takes the response in, and says whether there was one |
| StatusCache.FallbackIsReplaced | pico_limbo/src/forge/status_proxy.rs:166-169 | a new fallback is what later gets remember, and changes nothing else |
| StatusCache.HitsAreRecent | pico_limbo/src/forge/status_proxy.rs:85-94 | a get asks no one if and only if a value is stored and the last response is within the time to live |
| StatusCache.StaleGetsAllAsk | pico_limbo/src/forge/status_proxy.rs:85-99 | of any number of pings in a row, all fetch if and only if the cache is not fresh, and all are hits if and only if it is |
| StatusCache.StaleValueIsFetchedTwice | pico_limbo/src/forge/status_proxy.rs:98-99 | two pings on a stored value that has gone stale both fetch |
| StatusCache.ResponseWithoutData | pico_limbo/src/forge/status_proxy.rs:112-123 | from any state, a response without data makes the next ping a hit if and only if a value is stored and the time to live is not zero |
| CommandTrees.NewCommandsPacket | crates/minecraft_packets/src/play/commands_packet.rs:93-138 | the loops build the node array of the commands |
| CommandTrees.AddCommand | crates/minecraft_packets/src/play/commands_packet.rs:98-126 | one command appends its literal and its chain of arguments |
| CommandTrees.NodesAreATree | crates/minecraft_packets/src/play/commands_packet.rs:93-138 | every node but the root is the child of exactly one node, once, and that has a smaller index |
| CommandTrees.RootIsFirst | crates/minecraft_packets/src/play/commands_packet.rs:93-97 | the root is the first node, the only one of its kind, and not a command |
| CommandTrees.EveryNodeIsReached | crates/minecraft_packets/src/play/commands_packet.rs:128-132 | there is a path from the root to every node |
| CommandTrees.CommandsAreReadBack | crates/minecraft_packets/src/play/commands_packet.rs:93-138 | walking the array gives the commands and their arguments in order |
| CommandTrees.FlagsAreRightWhen | crates/minecraft_packets/src/play/commands_packet.rs:120-122 | run flags are right if and only if at most one argument is required, or more than there are |
| CommandTrees.TwoRequiredCannotRun | crates/minecraft_packets/src/play/commands_packet.rs:120-122 | a complete command with two required arguments is not marked as one that can be run |

## Left out

- VarInts.BinaryReader.ReadVar: the shift by 35 before the check for a sixth byte (`crates/pico_binutils/src/var_int.rs:25-30`) panics in a build with overflow checks; the model has the result of a build without them, where the shifted bits are dropped with the error.
- PacketStreams.PacketStream.ReadPacket: a read is not interrupted; a timer that wakes up in the middle of a frame can lose the bytes read so far (`pico_limbo/src/server/network.rs:221-232`).
- ForgeRoundTrip.RecordingInvertsReplay: asks that forwarding is off and that there are at most 2^31 - 1 steps, whose ids then fit 32 bits; the recorder's answers are handed to the server without frames, and a waiting recorder times out outside the model.
- CommandTrees.NewCommandsPacket: asks for fewer nodes than an i32 counts; beyond that the casts of indices wrap.
- Spiral.Drain: asks that the square, one step beyond it and the leg lengths fit 32 bits.
- LightFlood.PropagateLight: asks for a volume below 2^31 cells, the range of the source's 32-bit indices.
- zlib is a pair of functions of which the second undoes the first; gzip, HMAC, MD5, base64, JSON, TOML and XML are not part of this model.
- Parallel loops over columns and sections are sequential here: they write disjoint cells.
- Loading palettes, block entities and the schematic file format around the integer array.
- Block emission above 15 and block ids from 65536 on, which the source's tables do not have.
- What a hostname says (forge marker, forwarded identity), whether a proxy's signature is right, and random ids are parameters of the packets and handlers.
- Registry contents: each look-up succeeds or fails as a parameter says.
- Contents of packets other than queries, success packets and the compression threshold; spawn coordinates, flight flags and speeds, and the position check that sends a falling player back, which is a yes or no of the packet.
- The FML3 replay: no handler starts it, so a configuration plugin message is answered with nothing.
- Recording in the configuration phase, probing several versions, timeouts, and the files snapshots are kept in.
- The bytes of login packets other than queries and the compression threshold; the recorder does not read them.
- Sockets, the scheduler, and the order in which a task counts its player in and writes the packets of the same batch.
- Numbers in NBT beyond their bytes: floating point is kept as bit patterns. Text is valid UTF-8 bytes.
- Sizes of buffers reserved before reading, and the depth of recursion of nested values.
- The data length and empty-packet checks that the length reader has already made (`crates/net/src/packet_stream.rs:78-80`) can not fail and are not repeated.
