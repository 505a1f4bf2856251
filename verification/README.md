# Verified model of the IOT2050 configuration and update tools

This project models five components of the IOT2050 software and proves what they promise.

- **Extended-IO configuration.** A configuration of six slots is serialized per signal module with a
  bit-format language, framed with lengths, checksummed and parsed back. `Bits` interprets formats of
  `u`, `b`, `r` and `p` fields; `Modules` gives every module's parameters and format as data;
  `ModuleLaws` proves the module round trips; `Framing` splits chains of any length; `EioConfig`
  holds the blob laws for an arbitrary checksum function; `RecordLayout` and `BlobLayout` say what
  every byte is; `Serializers` and `EioCodec` are the program's loops, proved against these functions;
  `Schema` states the JSON schemas.
- **Firmware updater.** `Flash` has NOR semantics (erasing sets 0xff, programming clears bits) and
  records every operation. `FlashWrite` and `Updater` write images block by block over several
  partitions, read back and verify; `UpdateRun` is the control flow of one run in an arbitrary world
  of answers, faults and digests; `UpdateOnFlash` composes both, with backup and rollback; `EnvMerge`
  merges preserved variables into the default environment.
- **Serial controller.** `Fletcher` is the checksum with its deferred reduction; `Cp2102n` edits,
  reports and commits the configuration block.
- **Configuration pages.** `TextTables` is the label search. `RtdPage`, `AiPage`, `DigitalPage`,
  `MeterPage` with `MeterLaws` are the module pages: translations in both directions and the editors
  that keep dependent entries in step. `Effects` says what each action changes and leaves alone,
  `Reach` which settings can be made. `SmConfig` exports and imports all slots, `SlotPage` is the tab
  and slot state machine, `ImportLaws` says what an import does to the runs that follow it, and
  `EndToEnd` composes pages, configurations and blobs.
- **Event recording.** `EventRecord` is the polling loop over a growing journal.

Scalars are dynamically typed (`Common.Value`), as in the YAML documents: the page can put the text
`ERROR!` where a number belongs. A label is its family and its number (`TYPE_4` is `Label(Type, 4)`);
within one table the strings behind different labels differ. A menu is the set of labels it offers.

## Findings

Where the code departs from its documentation or evident intent, the model follows the code; each case
has a counterexample or an exact condition.

- Default environment lines are deleted by indices that were looked up once: the merge is right exactly
  when the names are met in strictly decreasing line order (`EnvMerge.MergeIsRightIff`).
- The second environment copy is read from where the first one stopped, so `env.backup` is all 0xff
  unless it is larger than `env`, and a copy only of a blank image (`Updater.BackupIsBlank`).
- Boot loader read-back always takes 0x8c0000 bytes (`Updater.ReadBackIsImage`): an image of another length
  fails all four attempts, and what it wrote behind those bytes survives the rollback
  (`UpdateOnFlash.FirstAttemptDecides`, `UpdateOnFlash.RollbackRestoresIff`).
- A backup does not save the environment of the flash (`UpdateOnFlash.RollbackRestores`).
- The schemas accept an SM1223 without its substitutes, which fails to serialize and cannot be imported
  by the page, and an SM1238 secondary voltage up to 99999, which does not fit its 16 bits
  (`Schema.ValidConfigEncodes`, `DigitalPage.DeviceRoundTrip`).
- RS485 times are narrowed to 8 bits, and edits that cancel in the checksum are not sent
  (`Cp2102n.SetupTimeReported`, `Cp2102n.SessionLost`).
- Clearing disabled check boxes undoes the mirroring of the current direction
  (`MeterLaws.DirectionMirroredIff`), in one case only when the page is shown again
  (`MeterLaws.DirectionLost`); a box that was disabled before keeps its tick (`Effects.DirectionStays`).
- Importing an SM1238 does not recompute the data-variant menu, and importing a deactivated RTD channel
  does not compute its coefficient menu (`MeterLaws.ImportedStaysValidIff`, `RtdPage.ImportedStaysValidIff`).
- Importing onto a shown SM1231 AI does not clear the broken-wire boxes that were disabled before, so an
  alarm can end up on a range that excludes it (`AiPage.ImportedStaysValidIff`, `ImportLaws.AlarmSlips`).
- A configuration that is read back names an SM1223 DC after the AC module (`EndToEnd.DescriptionsAgreeIff`).
- An import does not move the selected tab, so a hole can be made afterwards (`SlotPage.ImportMakesHolesIff`,
  `SlotPage.HoleReached`).
- Menus, alarms and the selected tab are the only ways in which importing a configuration that both
  validations accept can do harm later on (`ImportLaws.ImportStaysAcceptedIff`).
- A log line with a character outside printable ASCII is recorded again by every poll
  (`EventRecord.UnprintableRepeats`), so is one with a quote or backslash where JSON text has none
  (`EventRecord.BrokenRepeats`), and the line `[]` can be taken for recorded
  (`EventRecord.PollConvergesIff`).

## Model

| member | source | states |
|---|---|---|
| `Bits.UnpackOfPack` | recipes-app/iot2050-eio-manager/files/iot2050_eio_config.py:60-392 | For every format of u, b, r and p fields and every value list that packs, unpacking afterwards gives each value as its field coerces it, so values that fit come back as they are. |
| `Bits.PackOfUnpack` | recipes-app/iot2050-eio-manager/files/iot2050_eio_config.py:60-392 | Packing what was unpacked gives the same bits with padding cleared, whatever the padding held. |
| `Bits.PackSucceedsIff` | recipes-app/iot2050-eio-manager/files/iot2050_eio_config.py:60-392 | Packing succeeds exactly when there is a packable value for every value-carrying field. |
| `Bits.UnpackSucceedsIff` | recipes-app/iot2050-eio-manager/files/iot2050_eio_config.py:60-392 | Unpacking succeeds exactly when the data has at least the format's bits; surplus bytes are ignored. |
| `Bits.FittingIsLossless` | recipes-app/iot2050-eio-manager/files/iot2050_eio_config.py:60-392 | Values that fit their fields can be packed and are kept by the coercion, so for them the inverse is the identity. |
| `Bits.UnpackOfPackBytes` | recipes-app/iot2050-eio-manager/files/iot2050_eio_config.py:60-392 | The same inverse on bytes: the byte length is the width sum divided by 8, and trailing bytes do not matter. |
| `ModuleLaws.RecordShape` | recipes-app/iot2050-eio-manager/files/iot2050_eio_config.py:60-392 | Every module's format is well formed, has as many values as its parameter list, and each record is as long as its header tag says (0x02, 0x1A, 0x08, 0x14). |
| `ModuleLaws.ParametersReadBack` | recipes-app/iot2050-eio-manager/files/iot2050_eio_config.py:74-392 | The parameter list of in-width parameters fits its format, and the generated unpack statement assigns every parameter back to where it came from. |
| `ModuleLaws.ReadBackInWidth` | recipes-app/iot2050-eio-manager/files/iot2050_eio_config.py:91-392 | Whatever is unpacked is in width, so it can be packed again. |
| `ModuleLaws.ModuleRoundTrip` | recipes-app/iot2050-eio-manager/files/iot2050_eio_config.py:60-408 | Every module's serialize and deserialize are inverse on in-width parameters, with any bytes behind the record. |
| `ModuleLaws.DeserializeAccepts` | recipes-app/iot2050-eio-manager/files/iot2050_eio_config.py:91-408 | A deserializer accepts exactly the data with at least the record's length, and what it returns is well shaped and in width. |
| `Serializers.SerializeModule` | recipes-app/iot2050-eio-manager/files/iot2050_eio_config.py:38-408 | The serializers, which append to parameter lists in loops, compute the specification Serialize, with the same errors. |
| `Serializers.SerializeDigital` | recipes-app/iot2050-eio-manager/files/iot2050_eio_config.py:74-89 | SM1223: the input loop takes each channel's time from its group of four, the output loop fails on the first channel that is not configured. |
| `Serializers.SerializeMeter` | recipes-app/iot2050-eio-manager/files/iot2050_eio_config.py:222-253 | SM1238: the first integer that does not fit its byte count decides the error. |
| `Serializers.SerializeRtd` | recipes-app/iot2050-eio-manager/files/iot2050_eio_config.py:140-156 | SM1231 RTD: one row per channel, with the module-wide time and alarm in each. |
| `Serializers.SerializeAi` | recipes-app/iot2050-eio-manager/files/iot2050_eio_config.py:319-333 | SM1231 AI: one row per channel, with the module-wide time and alarm in each. |
| `Modules.RStrip` | recipes-app/iot2050-eio-manager/files/iot2050_eio_config.py:413 | Stripping removes exactly the trailing NULs. |
| `RecordLayout.SerializedAs` | recipes-app/iot2050-eio-manager/files/iot2050_eio_config.py:60-408 | For every module and every in-width body the record is, byte for byte, its layout: head tags, then each channel's bytes with every field at its place and weight, and zeros elsewhere. |
| `RecordLayout.RtdBytes` | recipes-app/iot2050-eio-manager/files/iot2050_eio_config.py:128-156 | RTD channel i at o = 2 + 26 i: type, range and coefficient in bytes o to o+2, 16 times the integration time plus the smoothing in o+3, the unit in o+4, the alarms with weights 128, 64, 16 and 1 in o+6, zeros in the others; tag 0x1A in byte 1. |
| `RecordLayout.AiBytes` | recipes-app/iot2050-eio-manager/files/iot2050_eio_config.py:307-333 | AI channel i at o = 2 + 26 i: type and range in o and o+1, integration time and smoothing in o+3, the alarms with the same weights in o+6, zeros in the others; tag 0x1A in byte 1. |
| `RecordLayout.DigitalBytes` | recipes-app/iot2050-eio-manager/files/iot2050_eio_config.py:60-89 | SM1223: behind the tag 0x02 two bytes per input with the delay of its group of four in the second, behind the second tag 0x02 two bytes per output with 128 times the substitute plus 16 times the behaviour in the second. |
| `RecordLayout.InputBytes` | recipes-app/iot2050-eio-manager/files/iot2050_eio_config.py:359-377 | SM1221: the same for its eight inputs. |
| `RecordLayout.MeterBytes` | recipes-app/iot2050-eio-manager/files/iot2050_eio_config.py:205-253 | SM1238: 15 bytes of module version, tags and module entries, then 20 bytes per channel, each field at its place and weight and the numbers big-endian. |
| `RecordLayout.ArticleNumbers` | recipes-app/iot2050-eio-manager/files/iot2050_eio_config.py:411-428 | Which article number, trailing NULs aside, has which module and channel number. |
| `RecordLayout.BigEndian` | recipes-app/iot2050-eio-manager/files/iot2050_eio_config.py:230-250 | A 16 or 32 bit number is written with its highest byte first. |
| `Framing.SplitSucceedsIff` | recipes-app/iot2050-eio-manager/files/iot2050_eio_config.py:507-531 | Over chains of any length: splitting succeeds exactly when there are cut points that tile the blob, each piece at least 28 bytes and carrying its own length. |
| `Framing.SplitOfJoin` | recipes-app/iot2050-eio-manager/files/iot2050_eio_config.py:507-531 | Every valid slot list is read back from its bytes. |
| `Framing.JoinOfSplit` | recipes-app/iot2050-eio-manager/files/iot2050_eio_config.py:507-531 | The pieces of an accepted blob are valid and re-concatenate to it. |
| `Framing.JoinInjective` | recipes-app/iot2050-eio-manager/files/iot2050_eio_config.py:482-490 | Two valid slot lists with the same bytes are equal. |
| `EioConfig.BlobRoundTrip` | recipes-app/iot2050-eio-manager/files/iot2050_eio_config.py:461-566 | For any checksum function, an encodable configuration is written, and it comes back with only descriptions and trailing NULs of article numbers normalised exactly when every number fits its 20-byte field. |
| `EioConfig.NumbersSurvive` | recipes-app/iot2050-eio-manager/files/iot2050_eio_config.py:461-566 | The blob passes its own size and checksum tests and decodes to the normalised configuration. |
| `EioConfig.BlobNormalForm` | recipes-app/iot2050-eio-manager/files/iot2050_eio_config.py:461-566 | Any accepted six-slot blob, whatever its padding bits, versions, unknown modules and trailing bytes, re-encodes to a blob that decodes to the identical configuration. |
| `EioConfig.ReencodesIff` | recipes-app/iot2050-eio-manager/files/iot2050_eio_config.py:461-566 | A decoded configuration can be written again exactly when it has all six slots. |
| `EioConfig.SlotRoundTrip` | recipes-app/iot2050-eio-manager/files/iot2050_eio_config.py:475-490 | A slot whose number fits its field decodes to its normal form. |
| `EioConfig.DecodedSlot` | recipes-app/iot2050-eio-manager/files/iot2050_eio_config.py:558-566 | Whatever slot is decoded can be encoded, is in normal form, and has a number of at most 20 characters. |
| `EioConfig.EncodingSucceeds` | recipes-app/iot2050-eio-manager/files/iot2050_eio_config.py:461-504 | An encodable configuration is written, and its body is the concatenation of its slot blobs behind a header that passes the tests. |
| `EioConfig.FieldKeeps` | recipes-app/iot2050-eio-manager/files/iot2050_eio_config.py:485-490 | A 20-byte field keeps an article number, up to trailing NULs, exactly when it has room for it. |
| `EioConfig.MissingSlot` | recipes-app/iot2050-eio-manager/files/iot2050_eio_config.py:475-477 | A configuration without one of the six slots is not written. |
| `BlobLayout.BlobBytes` | recipes-app/iot2050-eio-manager/files/iot2050_eio_config.py:434-504 | Every encodable configuration is written as exactly these bytes: 02 00 05 00, version 1, length and checksum in big-endian words, then the six slots; the checksum is that of the blob with zeros in its place. |
| `BlobLayout.SlotBytes` | recipes-app/iot2050-eio-manager/files/iot2050_eio_config.py:441-490 | A slot is its length, its article number cut or filled to 20 bytes, version 1 and its record. |
| `BlobLayout.HeadRefused` | recipes-app/iot2050-eio-manager/files/iot2050_eio_config.py:534-556 | A blob below 16 bytes is a struct error; one whose length word or checksum word is wrong is a ValueError. |
| `BlobLayout.SlotRefused` | recipes-app/iot2050-eio-manager/files/iot2050_eio_config.py:507-531 | A rest too short for a slot head is a ValueError, an impossible slot length a struct error; otherwise length, number, version and data are read at their places. |
| `EioCodec.ComputeChecksum` | recipes-app/iot2050-eio-manager/files/iot2050_eio_config.py:454-458 | The checksum is computed over the blob with its own field cleared in a copied buffer. |
| `EioCodec.ConvertToBlob` | recipes-app/iot2050-eio-manager/files/iot2050_eio_config.py:461-504 | The loop over the slots and the checksum patched over its placeholder compute ConfigToBlob, with the error of the first bad slot. |
| `EioCodec.ConvertToConfig` | recipes-app/iot2050-eio-manager/files/iot2050_eio_config.py:534-566 | The size test, the checksum test and the slots in turn compute BlobToConfig, with the error of the first failure. |
| `EioCodec.ValidateSemantic` | recipes-app/iot2050-eio-manager/files/iot2050_eio_config.py:598-626 | The loop with last_mod accepts exactly the complete, hole-free, pair-consistent configurations; a hole is always a ConfigError, a ConfigError means a hole or a disagreeing pair, and the only other error is a KeyError for a missing slot. |
| `Schema.ValidConfigEncodes` | recipes-app/iot2050-eio-manager/files/iot2050_eio_config.py:634-639 | What the schemas accept is written exactly when every SM1223 output channel is configured and every SM1238 secondary voltage fits 16 bits; it is then read back. |
| `Schema.SchemaInWidth` | recipes-app/iot2050-eio-manager/files/iot2050_eio_config.py:590-596 | Apart from those two gaps, schema-valid parameters fit their bit fields. |
| `Schema.UnwritableFails` | recipes-app/iot2050-eio-manager/files/config-schema/schema-sm1238-em-480vac.yaml:208-211 | A secondary voltage between 65536 and 99999, or a missing output channel, makes serializing fail. |
| `Schema.UnwritableError` | recipes-app/iot2050-eio-manager/files/iot2050_eio_config.py:84-89 | A schema-valid slot that cannot be written fails with a KeyError for the missing output and with an OverflowError for the voltage. |
| `Schema.ValidSlotEncodes` | recipes-app/iot2050-eio-manager/files/iot2050_eio_config.py:475-490 | The same for one slot: writable schema-valid slots are encodable, the others fail. |
| `Fletcher.NoOverflow` | recipes-app/switchserialmode/files/src/serial/cp2102n.c:193-211 | From folded sums, no 16-bit accumulator overflows at any byte of a chunk of at most 20 bytes. |
| `Fletcher.TwentyOneOverflows` | recipes-app/switchserialmode/files/src/serial/cp2102n.c:193-211 | 20 is the largest chunk length for which this holds. |
| `Fletcher.AddChunk` | recipes-app/switchserialmode/files/src/serial/cp2102n.c:201-203 | The inner loop over 16-bit sums computes the unbounded accumulators. |
| `Fletcher.Fletcher16` | recipes-app/switchserialmode/files/src/serial/cp2102n.c:193-211 | For every length within 16 bits, the chunked code returns the byte sum and the position-weighted byte sum, each represented modulo 255 in 1..255. |
| `Fletcher.SameAsRfc1146` | recipes-app/switchserialmode/files/src/serial/cp2102n.c:193-211 | The sums are those of the 8-bit Fletcher algorithm of Appendix I of RFC 1146; only zero is written as 0xff. |
| `Fletcher.SingleEdit` | recipes-app/switchserialmode/files/src/serial/cp2102n.c:193-211 | A single-byte edit leaves the checksum unchanged exactly when it keeps the byte or swaps 0x00 and 0xff. |
| `Cp2102n.WithBitIs` | recipes-app/switchserialmode/files/src/serial/cp2102n.c:73-97 | Setting or clearing one bit of a byte keeps the other seven. |
| `Cp2102n.Controller.constructor` | recipes-app/switchserialmode/files/src/serial/cp2102n.c:308-329 | Opening reads the block and remembers the checksum of its body. |
| `Cp2102n.Controller.SwitchMode` | recipes-app/switchserialmode/files/src/serial/cp2102n.c:292-306 | The setters in the order of the mode's branch; an unknown mode changes nothing. |
| `Cp2102n.Controller.PreProcess` | recipes-app/switchserialmode/files/src/serial/cp2102n.c:357-368 | If either time is missing, both are replaced. |
| `Cp2102n.Controller.SetSetupTime` | recipes-app/switchserialmode/files/src/serial/cp2102n.c:251-254 | The time is narrowed to 8 bits before its two bytes are written. |
| `Cp2102n.Controller.SetHoldTime` | recipes-app/switchserialmode/files/src/serial/cp2102n.c:256-259 | The same for the hold time. |
| `Cp2102n.Controller.Commit` | recipes-app/switchserialmode/files/src/serial/cp2102n.c:213-234 | The block is sent exactly when its checksum is not the remembered one, ending in the checksum of its own body; success means unchanged or read back identical. |
| `Cp2102n.SwitchReports` | recipes-app/switchserialmode/files/src/serial/cp2102n.c:261-306 | After a switch the report names that mode and its fixed logic level, and no bit outside the three mode bits has changed. |
| `Cp2102n.SwitchIsSent` | recipes-app/switchserialmode/files/src/serial/cp2102n.c:213-234 | A mode switch that changes the block at all changes its checksum, so it is sent. |
| `Cp2102n.SetupTimeReported` | recipes-app/switchserialmode/files/src/serial/cp2102n.c:251-259 | A time is reported as given exactly when it fits 8 bits; the other time and the mode are untouched. |
| `Cp2102n.PreprocessedReports` | recipes-app/switchserialmode/files/src/serial/cp2102n.c:357-368 | If either time is reported as zero the report shows both replacements, within 16 bits, and mode and logic stay; otherwise the block is untouched. |
| `Cp2102n.ReportBytes` | recipes-app/switchserialmode/files/src/serial/cp2102n.c:261-284 | Which bits and bytes of the 678 the report is read from. |
| `Cp2102n.StampBytes` | recipes-app/switchserialmode/files/src/serial/cp2102n.c:213-222 | A stamped block ends in the checksum of its first 676 bytes. |
| `Cp2102n.TimeIsSent` | recipes-app/switchserialmode/files/src/serial/cp2102n.c:213-234 | A new time escapes the checksum exactly when each of its two bytes stays or swaps 0x00 and 0xff. |
| `Cp2102n.LostTime` | recipes-app/switchserialmode/files/src/serial/cp2102n.c:213-259 | Asking for time 256 over time 0x00ff is lost. |
| `Cp2102n.Session` | recipes-app/switchserialmode/files/src/switchserialmode.c:98-171 | A whole call of the tool: defaults, mode, hold time, setup time, commit. |
| `Cp2102n.SessionReports` | recipes-app/switchserialmode/files/src/switchserialmode.c:140-156 | The edited block reports the mode and the narrowed times asked for and differs in no other byte. |
| `Cp2102n.EditedReports` | recipes-app/switchserialmode/files/src/switchserialmode.c:98-171 | The whole report of an edited block: a time asked for narrowed to 8 bits, one not asked for 5 if either stored time was zero and the stored one otherwise, the mode asked for if it is known and the stored one otherwise, and the logic level that goes with it. |
| `Cp2102n.SessionFulfilledIff` | recipes-app/switchserialmode/files/src/serial/cp2102n.c:346-355 | The call takes effect exactly unless the changes of the bytes at 587, 600, 601 and 669 to 672, plain and weighted with their distance from the end, both add up to 0 modulo 255; then the chip keeps its block, and reports what was asked only if nothing reported was to change. |
| `Cp2102n.CancelledIff` | recipes-app/switchserialmode/files/src/serial/cp2102n.c:193-234 | The checksum misses a call's edits exactly when those two sums of byte changes are 0 modulo 255. |
| `Cp2102n.SessionLost` | recipes-app/switchserialmode/files/src/serial/cp2102n.c:213-234 | A mode and a time changed in one call can cancel in the checksum: rs232 to rs422 with hold time 138 over 0xaa00 is not sent. |
| `Flash.ErasedBlockTakes` | recipes-app/iot2050-firmware-update/files/iot2050-firmware-update.tmpl:235-237 | With flash that can only clear bits, an erased block takes on exactly the bytes programmed into it. |
| `Flash.ErasesWhatDiffers` | recipes-app/iot2050-firmware-update/files/iot2050-firmware-update.tmpl:228-240 | Exactly the blocks that differ from their target are erased. |
| `Flash.ProgramsOnlyErased` | recipes-app/iot2050-firmware-update/files/iot2050-firmware-update.tmpl:234-237 | Every programming operation directly follows the erasure of its block. |
| `FlashWrite.WriteBlock` | recipes-app/iot2050-firmware-update/files/iot2050-firmware-update.tmpl:229-240 | One round: read, pad with 0xff, compare, erase and program only on a difference; the device offset is the one the previous round left. |
| `FlashWrite.WritePartition` | recipes-app/iot2050-firmware-update/files/iot2050-firmware-update.tmpl:222-248 | After the block loop the partition is the file's window over its old content, the log is the specified operations, and the remaining size is returned. |
| `FlashWrite.FlashedJoined` | recipes-app/iot2050-firmware-update/files/iot2050-firmware-update.tmpl:278-302 | Writing partition by partition is one write over the concatenated flash. |
| `Updater.WriteBootloader` | recipes-app/iot2050-firmware-update/files/iot2050-firmware-update.tmpl:278-302 | The loop over partitions leaves every partition with its share of the image; running out of partitions is an error raised after all were written. |
| `Updater.FlashHoldsImage` | recipes-app/iot2050-firmware-update/files/iot2050-firmware-update.tmpl:278-302 | The concatenated partitions are the image, 0xff up to a whole block, then the untouched old content. |
| `Updater.WriteAgain` | recipes-app/iot2050-firmware-update/files/iot2050-firmware-update.tmpl:278-302 | Writing the same image again changes nothing and erases nothing. |
| `Updater.ReadPartition` | recipes-app/iot2050-firmware-update/files/iot2050-firmware-update.tmpl:250-269 | Reading a partition gives its first bytes up to a whole number of blocks. |
| `Updater.ReadBootloader` | recipes-app/iot2050-firmware-update/files/iot2050-firmware-update.tmpl:305-326 | Read-back gives the first bytes of the concatenated flash, and fails exactly when there is too little flash. |
| `Updater.ReadBackIsImage` | recipes-app/iot2050-firmware-update/files/iot2050-firmware-update.tmpl:305-326 | What is read back after a write equals the image exactly when the image is as long as the rounded fixed length 0x8c0000. |
| `Updater.FindEnv` | recipes-app/iot2050-firmware-update/files/iot2050-firmware-update.tmpl:331-356 | The search finds partitions of the right names exactly when both exist among numbers 1 to 19; number 0 counts as not found. |
| `Updater.WriteEnv` | recipes-app/iot2050-firmware-update/files/iot2050-firmware-update.tmpl:358-384 | The env partition holds the generated image; env.backup holds what the file gives from the read position the first write left. |
| `Updater.BackupIsBlank` | recipes-app/iot2050-firmware-update/files/iot2050-firmware-update.tmpl:360-376 | For a backup partition of any size, env.backup is a copy of its image exactly when that image is all 0xff; with a backup no larger than env it always ends up all 0xff. |
| `Updater.UpdateBootloader` | recipes-app/iot2050-firmware-update/files/iot2050-firmware-update.tmpl:556-576 | The boot loader step succeeds exactly when the flash is large enough and the digests of file and read-back agree. |
| `Updater.UpdateEnv` | recipes-app/iot2050-firmware-update/files/iot2050-firmware-update.tmpl:556-576 | The environment step writes both partitions and succeeds exactly when the digests agree. |
| `Updater.Update` | recipes-app/iot2050-firmware-update/files/iot2050-firmware-update.tmpl:550-576 | Boot loader first, environment second; env is touched only after the boot loader check passed, and every partition's final content is given. |
| `Updater.BootloaderCheckPasses` | recipes-app/iot2050-firmware-update/files/iot2050-firmware-update.tmpl:305-326 | With an image of exactly 0x8c0000 bytes the boot loader check passes, for any digest. |
| `Updater.ShareHoldsImage` | recipes-app/iot2050-firmware-update/files/iot2050-firmware-update.tmpl:592-598 | After an update every byte outside env and env.backup within the image is the boot loader image's. |
| `UpdateOnFlash.Attempt` | recipes-app/iot2050-firmware-update/files/iot2050-firmware-update.tmpl:550-576 | One attempt on fault-free flash leaves the boot loader's shares and, only if its check passed, the two environment images; it ends well exactly when both checks pass. |
| `UpdateOnFlash.SuccessIsDeployed` | recipes-app/iot2050-firmware-update/files/iot2050-firmware-update.tmpl:1033-1042 | Whichever of the attempts is the one after which the run exits with 0, the flash then holds what was asked for relative to the flash before the first attempt, however the attempts before failed. |
| `UpdateOnFlash.FirstAttemptDecides` | recipes-app/iot2050-firmware-update/files/iot2050-firmware-update.tmpl:1033-1042 | On fault-free flash and with a collision-free digest the run succeeds exactly when the image has the length that is read back and, unless forced, env and env.backup are equally large; no later attempt succeeds where the first did not. |
| `UpdateOnFlash.RollbackRestoresIff` | recipes-app/iot2050-firmware-update/files/iot2050-firmware-update.tmpl:510-516 | Writing the backed-up boot loader passes its check for any digest, and restores the whole flash of the time of the backup exactly when nothing has changed behind the bytes that a backup reads. |
| `UpdateOnFlash.RollbackRestores` | recipes-app/iot2050-firmware-update/files/iot2050-firmware-update.tmpl:510-520 | After a rollback every partition but env and env.backup has its backed-up bytes again, whatever it held in between; env holds the newly assembled environment, not the one the flash held. |
| `UpdateRun.Run.Program` | recipes-app/iot2050-firmware-update/files/iot2050-firmware-update.tmpl:895-1066 | On every run: no flash write before the consents or, unless waived, before a stored backup whose two reads agree; at most four attempts, one for a rollback; 0 or 1 only after an attempt whose checks all passed. And which exit: 2 exactly when the arguments do not parse or name no firmware; 6 exactly when a question that is reached is not answered with y; 7 for an unsuitable tarball; 3 for a due backup that fails; 5 when the fourth unforced attempt fails; 4 for every caught error of a rollback; the error's own code otherwise; a crash exactly for an uncaught exception. |
| `UpdateRun.Run.Retry` | recipes-app/iot2050-firmware-update/files/iot2050-firmware-update.tmpl:1033-1042 | The retry loop ends with the first attempt that does not raise a caught error, or with the fourth, and exits accordingly; it has made exactly that many attempts. |
| `UpdateRun.EndsRetry` | recipes-app/iot2050-firmware-update/files/iot2050-firmware-update.tmpl:1033-1066 | Every end of the retry loop is the right exit of the run. |
| `UpdateRun.UnforcedCode` | recipes-app/iot2050-firmware-update/files/iot2050-firmware-update.tmpl:572-576 | An unforced attempt fails with code 5 only. |
| `UpdateRun.Run.Rollback` | recipes-app/iot2050-firmware-update/files/iot2050-firmware-update.tmpl:1020-1028 | A rollback asks once more and exits 6 if declined; then it tries once and exits 1 if the attempt passes, 4 if it fails, and crashes if it crashes. |
| `UpdateRun.Run.Backup` | recipes-app/iot2050-firmware-update/files/iot2050-firmware-update.tmpl:492-548 | A backup succeeds exactly when nothing fails and both reads have the same digest. |
| `UpdateRun.Run.Update` | recipes-app/iot2050-firmware-update/files/iot2050-firmware-update.tmpl:550-576 | An attempt writes and verifies the boot loader and, unless forced, the environment, and ends with the first error. |
| `UpdateRun.SafeAppend` | recipes-app/iot2050-firmware-update/files/iot2050-firmware-update.tmpl:978-1042 | A log stays safe when an event is added that is not a write, or is permitted. |
| `EnvMerge.EnvFile.RemoveLineByIndex` | recipes-app/iot2050-firmware-update/files/iot2050-firmware-update.tmpl:759-766 | Rewriting the file drops the one line with the given index. |
| `EnvMerge.EnvFile.RemoveDuplicateDefaultEnv` | recipes-app/iot2050-firmware-update/files/iot2050-firmware-update.tmpl:768-774 | The loop deletes, one by one, at indices looked up in the names read before the first deletion. |
| `EnvMerge.GenerateEnvFirmware` | recipes-app/iot2050-firmware-update/files/iot2050-firmware-update.tmpl:776-792 | The merged file is what the deletions leave, followed by the preserved values; a missing list is an exception. |
| `EnvMerge.DeletionIsRightIff` | recipes-app/iot2050-firmware-update/files/iot2050-firmware-update.tmpl:759-774 | For distinct lines, deleting by stale indices removes the intended lines exactly when the indices are strictly decreasing. |
| `EnvMerge.MergeIsRightIff` | recipes-app/iot2050-firmware-update/files/iot2050-firmware-update.tmpl:768-792 | With distinct default names and distinct preserved names, the merge is the intended one exactly when the preserved names that have a default are met in strictly decreasing line order. |
| `EnvMerge.IntendedMerge` | recipes-app/iot2050-firmware-update/files/iot2050-firmware-update.tmpl:776-792 | In the intended merge every name is bound once, preserved values win, and exactly the other defaults survive. |
| `EnvMerge.OneNameIsFine` | recipes-app/iot2050-firmware-update/files/update.conf.json.tmpl:17-19 | One preserved name, as shipped, always meets the condition. |
| `EnvMerge.AscendingNamesFail` | recipes-app/iot2050-firmware-update/files/iot2050-firmware-update.tmpl:768-774 | Two names in ascending line order lose a default and leave a name bound twice. |
| `EventRecord.Journal.WriteEvent` | recipes-app/iot2050-event-record/files/iot2050_event.py:14-19 | An event is appended as type, colon and text; an empty one is an exception that leaves the journal alone. |
| `EventRecord.Journal.ReadSpecifiedEvent` | recipes-app/iot2050-event-record/files/iot2050_event.py:29-36 | The loop selects the entries that mention the type and returns them as one JSON text. |
| `EventRecord.Journal.Poll` | recipes-app/iot2050-event-record/files/iot2050-event-record.py:119-128 | One round of the endless loop appends exactly the new lines, judged against the read-back taken before it. |
| `EventRecord.PollOrder` | recipes-app/iot2050-event-record/files/iot2050-event-record.py:119-128 | A poll appends one event for each line that is no power line and was not in the read-back before, in the order of the log, each behind 'IOT2050_EVENTS.eio: '. |
| `EventRecord.ReadOrder` | recipes-app/iot2050-event-record/files/iot2050_event.py:29-38 | The read-back holds the entries that mention the event type, in the order of the journal. |
| `EventRecord.JsonList` | recipes-app/iot2050-event-record/files/iot2050_event.py:29-38 | The text of a list as json.dumps writes it with an indentation of four. |
| `EventRecord.JsonChars` | recipes-app/iot2050-event-record/files/iot2050_event.py:29-38 | The characters json.dumps escapes, and how. |
| `EventRecord.PollRecordsIff` | recipes-app/iot2050-event-record/files/iot2050-event-record.py:119-128 | After a poll every line that is no power line and needs no JSON escaping occurs in the read-back, exactly unless it is the line [] in a journal without events that other lines are then written to. |
| `EventRecord.PollOnlyAppends` | recipes-app/iot2050-event-record/files/iot2050-event-record.py:119-128 | The journal only grows, by lines of the log. |
| `EventRecord.PollRecords` | recipes-app/iot2050-event-record/files/iot2050-event-record.py:119-128 | Every line that is no power line and reads the same in its JSON escape, quotes and backslashes included, is in the read-back after a poll, apart from the exception of []. |
| `EventRecord.BrokenRepeats` | recipes-app/iot2050-event-record/files/iot2050-event-record.py:119-128 | A line with an interior quote or backslash in a surrounding that JSON text never shows is never found in the read-back, and every poll writes it again. |
| `EventRecord.PollConvergesIff` | recipes-app/iot2050-event-record/files/iot2050-event-record.py:119-128 | Polling such a log again, without another writer, adds nothing, with exactly that exception. |
| `EventRecord.UnprintableRepeats` | recipes-app/iot2050-event-record/files/iot2050-event-record.py:119-128 | A line with a character that JSON escapes into ASCII is written again by every poll. |
| `EventRecord.EmptyListIsSkipped` | recipes-app/iot2050-event-record/files/iot2050-event-record.py:119-128 | The line [] is taken for recorded in an empty journal, whose read-back is that text. |
| `EventRecord.EmptyListIsLost` | recipes-app/iot2050-event-record/files/iot2050-event-record.py:119-128 | A two-line log for which the exception applies. |
| `TextTables.SearchIsFirstMatch` | recipes-app/iot2050-conf-webui/files/src/lib/smConfig/ConfTextConverter.js:6-42 | The nested search over items, keys, rules and mapping is a first match in one flattened list. |
| `TextTables.NumberReturnsIff` | recipes-app/iot2050-conf-webui/files/src/lib/smConfig/ConfTextConverter.js:6-42 | A listed number comes back from yamlToUi and uiToYaml exactly when its first label has no earlier entry for another number. |
| `TextTables.NumberRoundTrip` | recipes-app/iot2050-conf-webui/files/src/lib/smConfig/ConfTextConverter.js:6-42 | If no label stands for two numbers, every listed number comes back. |
| `TextTables.LabelRoundTrip` | recipes-app/iot2050-conf-webui/files/src/lib/smConfig/ConfTextConverter.js:6-42 | The other direction holds for all offered labels exactly when no number has two labels. |
| `TextTables.ErrorIff` | recipes-app/iot2050-conf-webui/files/src/lib/smConfig/ConfTextConverter.js:6-42 | The error text answers exactly the texts that are not offered and the values that are not listed. |
| `TextTables.CodesTranslate` | recipes-app/iot2050-conf-webui/files/src/lib/smConfig/ConfTextConverter.js:6-42 | A table whose only applicable item is a family of numbered labels translates exactly those numbers and labels. |
| `RtdPage.RtdTranslates` | recipes-app/iot2050-conf-webui/files/src/components/ExtendedModules/SM1231_RTD/SM1231_RTDConf.js:17-155 | Each RTD key translates exactly its family of numbered labels. |
| `RtdPage.RangeTranslates` | recipes-app/iot2050-conf-webui/files/src/components/ExtendedModules/SM1231_RTD/SM1231_RTDConf.js:32-90 | The three range rules; for a deactivated channel the resistance labels come first. |
| `RtdPage.ConvertToUiFormat` | recipes-app/iot2050-conf-webui/files/src/components/ExtendedModules/SM1231_RTD/SM1231_RTDConf.js:329-384 | The import loop computes ToUi: scenario by type, selections by type and range. |
| `RtdPage.ConvertToDeviceFormat` | recipes-app/iot2050-conf-webui/files/src/components/ExtendedModules/SM1231_RTD/SM1231_RTDConf.js:386-427 | The export loop computes ToDevice. |
| `RtdPage.ChannelDeviceRoundTrip` | recipes-app/iot2050-conf-webui/files/src/components/ExtendedModules/SM1231_RTD/SM1231_RTDConf.js:329-427 | A channel comes back from import and export exactly when its numbers are listed, the range under the type's rule; this includes deactivated channels. |
| `RtdPage.DeviceRoundTrip` | recipes-app/iot2050-conf-webui/files/src/components/ExtendedModules/SM1231_RTD/SM1231_RTDConf.js:329-427 | The same for a whole module. |
| `RtdPage.ChannelPageRoundTrip` | recipes-app/iot2050-conf-webui/files/src/components/ExtendedModules/SM1231_RTD/SM1231_RTDConf.js:68-89 | Labels come back from export and import exactly unless the channel is deactivated with thermal range 2 or 3. |
| `RtdPage.Editor.UpdateChannelRange` | recipes-app/iot2050-conf-webui/files/src/components/ExtendedModules/SM1231_RTD/SM1231_RTDConf.js:434-454 | The handler sets the selection and resets a range that does not fit; a reset to a thermal range updates the coefficient, too. |
| `RtdPage.Editor.UpdateChannelTempCoeff` | recipes-app/iot2050-conf-webui/files/src/components/ExtendedModules/SM1231_RTD/SM1231_RTDConf.js:456-470 | The handler recomputes the coefficient selection and replaces a coefficient that is not on it. |
| `RtdPage.Editor.Change` | recipes-app/iot2050-conf-webui/files/src/components/ExtendedModules/SM1231_RTD/SM1231_RTDConf.js:521-580 | A changed entry: new value, handler, then the check boxes that have just been disabled are cleared. |
| `RtdPage.StepKeeps` | recipes-app/iot2050-conf-webui/files/src/components/ExtendedModules/SM1231_RTD/SM1231_RTDConf.js:429-472 | Every enabled edit keeps a channel consistent: range fits type, coefficient fits range, disabled boxes clear. |
| `RtdPage.EveryRunExportsValid` | recipes-app/iot2050-conf-webui/files/src/components/ExtendedModules/SM1231_RTD/SM1231_RTDConf.js:195-275 | Every run of edits from the default channel, through 'deactivated' too, exports a channel the schema accepts, never the error text. |
| `RtdPage.CoeffFitsIff` | recipes-app/iot2050-conf-webui/files/src/components/ExtendedModules/SM1231_RTD/SM1231_RTDConf.js:195-275 | The coefficients decideTempCoeffSelection offers are exactly those the schema allows for the range. |
| `RtdPage.ImportedStaysValidIff` | recipes-app/iot2050-conf-webui/files/src/components/ExtendedModules/SM1231_RTD/SM1231_RTDConf.js:329-384 | Of the channels the schema accepts, exactly those stay acceptable under all edits that are not deactivated, or whose range is a resistance, or whose range takes coefficient 0 and has a fitting coefficient. |
| `RtdPage.ImportedThenActivated` | recipes-app/iot2050-conf-webui/files/src/components/ExtendedModules/SM1231_RTD/SM1231_RTDConf.js:434-454 | A valid deactivated channel that one click makes invalid. |
| `RtdPage.PageIsValid` | recipes-app/iot2050-conf-webui/files/src/components/ExtendedModules/SM1231_RTD/SM1231_RTDConf.js:386-427 | A consistent page is exported as a slot the schema accepts. |
| `Effects.RtdEntry` | recipes-app/iot2050-conf-webui/files/src/components/ExtendedModules/SM1231_RTD/SM1231_RTDConf.js:521-580 | Every entry but type and range takes its new value and changes nothing else. |
| `Effects.RtdRange` | recipes-app/iot2050-conf-webui/files/src/components/ExtendedModules/SM1231_RTD/SM1231_RTDConf.js:456-470 | A new range keeps a coefficient the schema allows with it and replaces another by the range's standard one, on a thermal channel; on a resistor it changes nothing else. |
| `Effects.RtdType` | recipes-app/iot2050-conf-webui/files/src/components/ExtendedModules/SM1231_RTD/SM1231_RTDConf.js:434-454 | A new type keeps the range if it is of its family and takes the family's first one otherwise, with coefficient 0 for a thermal one; it clears the boxes it disables and nothing else changes. |
| `Reach.RtdExportsIff` | recipes-app/iot2050-conf-webui/files/src/components/ExtendedModules/SM1231_RTD/SM1231_RTDConf.js:195-472 | A channel can be exported after some run of edits from the default one exactly when the schema accepts it and, if it is deactivated with a thermal range, its coefficient fits that range. |
| `AiPage.AiTranslates` | recipes-app/iot2050-conf-webui/files/src/components/ExtendedModules/SM1231_AI/SM1231AIConf.js:15-71 | Each AI key translates exactly its family of numbered labels. |
| `AiPage.ConvertToUiFormat` | recipes-app/iot2050-conf-webui/files/src/components/ExtendedModules/SM1231_AI/SM1231AIConf.js:124-164 | The import loop computes ToUi. |
| `AiPage.ConvertToDeviceFormat` | recipes-app/iot2050-conf-webui/files/src/components/ExtendedModules/SM1231_AI/SM1231AIConf.js:166-193 | The export loop computes ToDevice. |
| `AiPage.ChannelDeviceRoundTrip` | recipes-app/iot2050-conf-webui/files/src/components/ExtendedModules/SM1231_AI/SM1231AIConf.js:124-193 | A channel comes back exactly when its numbers are listed. |
| `AiPage.DeviceRoundTrip` | recipes-app/iot2050-conf-webui/files/src/components/ExtendedModules/SM1231_AI/SM1231AIConf.js:124-193 | The same for a whole module. |
| `AiPage.ChannelPageRoundTrip` | recipes-app/iot2050-conf-webui/files/src/components/ExtendedModules/SM1231_AI/SM1231AIConf.js:124-193 | A labelled channel comes back entry by entry; only its range list is recomputed. |
| `AiPage.Editor.SetChannelRange` | recipes-app/iot2050-conf-webui/files/src/components/ExtendedModules/SM1231_AI/SM1231AIConf.js:196-221 | The handler gives the channel and the one bound to it the type, the range list and the default range. |
| `AiPage.Editor.Change` | recipes-app/iot2050-conf-webui/files/src/components/ExtendedModules/SM1231_AI/SM1231AIConf.js:254-306 | A changed entry: new value, handler, then the broken-wire and underflow boxes that have just been disabled. |
| `AiPage.StepKeeps` | recipes-app/iot2050-conf-webui/files/src/components/ExtendedModules/SM1231_AI/SM1231AIConf.js:195-306 | Every enabled edit keeps channels consistent, and pairs on one type if they were. |
| `AiPage.ImportConsistent` | recipes-app/iot2050-conf-webui/files/src/components/ExtendedModules/SM1231_AI/SM1231AIConf.js:124-164 | Every channel the schema accepts is consistent once its page is newly shown; an import onto a page of the same module is not that case. |
| `AiPage.ReplacedConsistentIff` | recipes-app/iot2050-conf-webui/files/src/components/ConfigEntry/CheckConfig.js:20-24 | When an accepted channel replaces the one shown on the same module, it is consistent exactly unless it is a voltage channel with a broken-wire alarm and the box was disabled before as well. |
| `AiPage.ImportedStaysValidIff` | recipes-app/iot2050-conf-webui/files/src/components/ConfigEntry/CheckConfig.js:20-24 | Of the imports onto a page of the same module that the schema accepts, exactly those without such a channel export acceptable channels after every run of edits. |
| `AiPage.EveryRunExportsValid` | recipes-app/iot2050-conf-webui/files/src/components/ExtendedModules/SM1231_AI/SM1231AIConf.js:195-306 | Every run from consistent channels, such as the default ones, exports valid channels; types that agree in each pair go on agreeing. |
| `AiPage.PageIsValid` | recipes-app/iot2050-conf-webui/files/src/components/ExtendedModules/SM1231_AI/SM1231AIConf.js:166-193 | A consistent page is exported as a slot the schema accepts, with equal types in each pair. |
| `Effects.AiEntry` | recipes-app/iot2050-conf-webui/files/src/components/ExtendedModules/SM1231_AI/SM1231AIConf.js:195-306 | An entry changes its own channel alone, the type the whole pair with its list and first range; range 3 clears the underflow alarm and leaving it the broken-wire alarm. |
| `Reach.AiReaches` | recipes-app/iot2050-conf-webui/files/src/components/ExtendedModules/SM1231_AI/SM1231AIConf.js:195-306 | From any consistent page of channels, paired or not, every consistent and paired one can be reached by edits. |
| `Reach.AiExportsIff` | recipes-app/iot2050-conf-webui/files/src/components/ExtendedModules/SM1231_AI/SM1231AIConf.js:195-306 | Channels can be exported after some run of edits from the default page exactly when the schema accepts them, no voltage channel has a broken-wire alarm and the types agree in pairs. |
| `DigitalPage.DigitalTranslates` | recipes-app/iot2050-conf-webui/files/src/components/ExtendedModules/SM1223/SM1223Conf.js:20-62 | Delay and behaviour keys translate exactly their labels. |
| `DigitalPage.MarkTranslates` | recipes-app/iot2050-conf-webui/files/src/components/ExtendedModules/SM1223/SM1223Conf.js:49-61 | A substitute is a tick: true for 1, false for 0, nothing else. |
| `DigitalPage.ConfDefault` | recipes-app/iot2050-conf-webui/files/src/components/ExtendedModules/SM1223/SM1223Conf.js:76-124 | The builder gives two or four delays and 8 or 16 ticked substitutes. |
| `DigitalPage.ConvertToUiFormat` | recipes-app/iot2050-conf-webui/files/src/components/ExtendedModules/SM1223/SM1223Conf.js:126-145 | The import loop computes ToUi; an output channel that is not configured is an exception. |
| `DigitalPage.ConvertToDeviceFormat` | recipes-app/iot2050-conf-webui/files/src/components/ExtendedModules/SM1223/SM1223Conf.js:147-176 | The export loop computes ToDevice. |
| `DigitalPage.DeviceRoundTrip` | recipes-app/iot2050-conf-webui/files/src/components/ExtendedModules/SM1223/SM1223Conf.js:126-176 | A slot can be imported exactly when every output channel is configured, and then comes back exactly when its numbers are listed. |
| `DigitalPage.StepKeeps` | recipes-app/iot2050-conf-webui/files/src/components/ExtendedModules/SM1223/SM1223Conf.js:178-282 | Every enabled edit keeps the labels on offer. |
| `DigitalPage.ConsistentIsValid` | recipes-app/iot2050-conf-webui/files/src/components/ExtendedModules/SM1223/SM1223Conf.js:147-176 | Such a page exports a slot that the schema accepts and the serializer can write. |
| `DigitalPage.InputRoundTrip` | recipes-app/iot2050-conf-webui/files/src/components/ExtendedModules/SM1221_8DI/SM1221with8DIConf.js:57-74 | SM1221: a slot comes back exactly when both delays are listed. |
| `DigitalPage.InputConsistentIsValid` | recipes-app/iot2050-conf-webui/files/src/components/ExtendedModules/SM1221_8DI/SM1221with8DIConf.js:57-74 | SM1221: offered labels export validly and come back. |
| `Effects.DigitalEntry` | recipes-app/iot2050-conf-webui/files/src/components/ExtendedModules/SM1223/SM1223Conf.js:178-282 | Every entry of an SM1223 page takes its new value and changes nothing else. |
| `Reach.DigitalReaches` | recipes-app/iot2050-conf-webui/files/src/components/ExtendedModules/SM1223/SM1223Conf.js:178-282 | From any SM1223 page every consistent page of the same module can be reached by edits. |
| `MeterPage.MeterTranslates` | recipes-app/iot2050-conf-webui/files/src/components/ExtendedModules/SM1238_EM480VAC/SM1238EM480VACConf.js:16-143 | Each SM1238 key translates exactly its family of numbered labels. |
| `MeterPage.ConvertToUiFormat` | recipes-app/iot2050-conf-webui/files/src/components/ExtendedModules/SM1238_EM480VAC/SM1238EM480VACConf.js:353-385 | The import loop computes ToUi, with the selections of the default page. |
| `MeterPage.ConvertToDeviceFormat` | recipes-app/iot2050-conf-webui/files/src/components/ExtendedModules/SM1238_EM480VAC/SM1238EM480VACConf.js:387-423 | The export loop computes ToDevice. |
| `MeterPage.DeviceRoundTrip` | recipes-app/iot2050-conf-webui/files/src/components/ExtendedModules/SM1238_EM480VAC/SM1238EM480VACConf.js:353-423 | Import and export undo each other exactly on listed numbers. |
| `MeterPage.Editor.SetDataVariantSelection` | recipes-app/iot2050-conf-webui/files/src/components/ExtendedModules/SM1238_EM480VAC/SM1238EM480VACConf.js:426-531 | The handler replaces the menu, and a variant that is not on it. |
| `MeterPage.Editor.SetCtSndCurSelection` | recipes-app/iot2050-conf-webui/files/src/components/ExtendedModules/SM1238_EM480VAC/SM1238EM480VACConf.js:533-547 | Three single phases leave one secondary current on every channel; all other types offer both. |
| `MeterPage.Editor.UpdateSelectionOnChangeConType` | recipes-app/iot2050-conf-webui/files/src/components/ExtendedModules/SM1238_EM480VAC/SM1238EM480VACConf.js:549-571 | Both menus, then the six entries a balanced connection copies from channel 0. |
| `MeterPage.Editor.UpdateCtSecondCur` | recipes-app/iot2050-conf-webui/files/src/components/ExtendedModules/SM1238_EM480VAC/SM1238EM480VACConf.js:582-589 | Under a balanced connection an edit of channel 0 reaches the others, and no other edit does. |
| `MeterPage.Editor.UpdateReCurDir` | recipes-app/iot2050-conf-webui/files/src/components/ExtendedModules/SM1238_EM480VAC/SM1238EM480VACConf.js:618-625 | The same for the current direction. |
| `MeterPage.Editor.UpdateSlider` | recipes-app/iot2050-conf-webui/files/src/components/ExtendedModules/SM1238_EM480VAC/SM1238EM480VACConf.js:573-616 | The same for the four mirrored sliders. |
| `MeterPage.Editor.ChangeSlider` | recipes-app/iot2050-conf-webui/files/src/components/ConfigEntry/SliderConfig.js:24-38 | A typed number is stored and mirrored, then clamped and mirrored again when the entry loses the focus. |
| `MeterPage.Editor.ClearBoxes` | recipes-app/iot2050-conf-webui/files/src/components/ConfigEntry/CheckConfig.js:9-24 | Boxes that are disabled now and were not before are cleared, running their handler. |
| `MeterPage.Editor.Change` | recipes-app/iot2050-conf-webui/files/src/components/ExtendedModules/SM1238_EM480VAC/SM1238EM480VACConf.js:425-914 | A changed entry: new value, handler, check boxes. |
| `MeterLaws.VariantsMatchSchema` | recipes-app/iot2050-conf-webui/files/src/components/ExtendedModules/SM1238_EM480VAC/SM1238EM480VACConf.js:426-531 | The menu computed by dropping labels is the list the schema spells out, for every version and connection type. |
| `MeterLaws.StepKeeps` | recipes-app/iot2050-conf-webui/files/src/components/ExtendedModules/SM1238_EM480VAC/SM1238EM480VACConf.js:426-616 | Every enabled edit keeps the page consistent: current menus, equal mirrored entries, clear dead boxes, numbers in range. |
| `MeterLaws.MountKeeps` | recipes-app/iot2050-conf-webui/files/src/components/ConfigEntry/CheckConfig.js:20-24 | Showing the page again keeps it consistent. |
| `MeterLaws.EveryRunIsConsistent` | recipes-app/iot2050-conf-webui/files/src/components/ExtendedModules/SM1238_EM480VAC/SM1238EM480VACConf.js:426-616 | After any run from the default page the variant is in its menu, the menu is the function of version and type, type 0F has the one secondary current, type 0E has equal selections and sliders on all channels, and the export is valid. |
| `MeterLaws.SoundIsValid` | recipes-app/iot2050-conf-webui/files/src/components/ExtendedModules/SM1238_EM480VAC/SM1238EM480VACConf.js:387-423 | A sound page is exported as a slot the schema accepts. |
| `MeterLaws.DirectionCopiedIff` | recipes-app/iot2050-conf-webui/files/src/components/ConfigEntry/CheckConfig.js:20-24 | Right after the choice of type 0E a channel has channel 0's current direction exactly when that is clear or the channel was dead before. |
| `MeterLaws.ShownAgain` | recipes-app/iot2050-conf-webui/files/src/components/ConfigEntry/CheckConfig.js:20-24 | Showing a page of type 0E again clears the copies, so a channel agrees with channel 0 exactly when that is clear. |
| `MeterLaws.DirectionMirroredIff` | recipes-app/iot2050-conf-webui/files/src/components/ConfigEntry/CheckConfig.js:20-24 | In every run of edits and showings that keeps type 0E, a channel agrees with channel 0 exactly while channel 0 is clear or the channel holds a copy that no showing has cleared: made for a dead channel on choosing 0E, or by setting channel 0 since. |
| `MeterLaws.DirectionLost` | recipes-app/iot2050-conf-webui/files/src/components/ConfigEntry/CheckConfig.js:20-24 | A single phase with its direction set becomes type 0E and all channels agree; showing the page again makes them differ. |
| `MeterLaws.DirectionFollows` | recipes-app/iot2050-conf-webui/files/src/components/ExtendedModules/SM1238_EM480VAC/SM1238EM480VACConf.js:618-625 | Setting the direction of channel 0 afterwards reaches the others. |
| `MeterLaws.FullMenuIff` | recipes-app/iot2050-conf-webui/files/src/components/ExtendedModules/SM1238_EM480VAC/SM1238EM480VACConf.js:353-385 | The full menu that an import leaves is the right one exactly for version 112 with a three-phase type or none. |
| `MeterLaws.ImportedStaysValidIff` | recipes-app/iot2050-conf-webui/files/src/components/ExtendedModules/SM1238_EM480VAC/SM1238EM480VACConf.js:353-385 | Of the slots the schema accepts, exactly those stay acceptable under all edits whose module is deactivated or for which the full menu is right. |
| `Effects.MeterEntry` | recipes-app/iot2050-conf-webui/files/src/components/ExtendedModules/SM1238_EM480VAC/SM1238EM480VACConf.js:627-914 | Every module entry but version and connection type takes its new value, the tolerance within 1 to 50, and changes nothing else. |
| `Effects.MeterVersion` | recipes-app/iot2050-conf-webui/files/src/components/ExtendedModules/SM1238_EM480VAC/SM1238EM480VACConf.js:426-531 | A new version brings the schema's list of variants along, keeps a variant on it and takes FE otherwise; nothing else changes. |
| `Effects.MeterConnection` | recipes-app/iot2050-conf-webui/files/src/components/ExtendedModules/SM1238_EM480VAC/SM1238EM480VACConf.js:549-571 | A new connection type, entry by entry: list and variant as above, boxes of channels no longer used cleared, the six copies from channel 0 under 0E, one secondary current under 0F, the module's boxes cleared under 00, and nothing else. |
| `Effects.MeterSlider` | recipes-app/iot2050-conf-webui/files/src/components/ExtendedModules/SM1238_EM480VAC/SM1238EM480VACConf.js:573-616 | A moved slider holds the nearest number within its limits on every channel it reaches and changes nothing else. |
| `Effects.MeterBox` | recipes-app/iot2050-conf-webui/files/src/components/ExtendedModules/SM1238_EM480VAC/SM1238EM480VACConf.js:618-625 | A check box takes its new value on every channel it reaches and changes nothing else. |
| `Effects.MeterCurrent` | recipes-app/iot2050-conf-webui/files/src/components/ExtendedModules/SM1238_EM480VAC/SM1238EM480VACConf.js:582-589 | The same for the secondary current. |
| `Effects.MeterTab` | recipes-app/iot2050-conf-webui/files/src/components/ConfigEntry/CheckConfig.js:20-24 | Showing a consistent page clears the direction of unused and following channels, the module's boxes under 00, and nothing else. |
| `Reach.MeterReaches` | recipes-app/iot2050-conf-webui/files/src/components/ExtendedModules/SM1238_EM480VAC/SM1238EM480VACConf.js:426-914 | From any consistent page every consistent page can be reached by edits on which the disabled boxes are clear; under type 0E the directions may also be all set, or set on channels 0 and 2, the copies the choice of the type leaves. |
| `Effects.DirectionStays` | recipes-app/iot2050-conf-webui/files/src/components/ConfigEntry/CheckConfig.js:20-24 | A box that was disabled before keeps its tick: from type 0E straight to 0B the directions of channels 1 and 2 stay set until the page is shown again. |
| `SmConfig.ExportYamlConfig` | recipes-app/iot2050-conf-webui/files/src/lib/smConfig/smConfig.js:26-63 | The loop over any number of slots assigns slot1, slot2, ... and computes Export. |
| `SmConfig.ImportYamlConfig` | recipes-app/iot2050-conf-webui/files/src/lib/smConfig/smConfig.js:65-106 | The loop over six slots overwrites empty pages and computes Import, with the error of the first failure. |
| `SmConfig.ListedSlotReturns` | recipes-app/iot2050-conf-webui/files/src/lib/smConfig/smConfig.js:26-106 | A slot with listed numbers and configured outputs is imported, and exporting it gives its number and parameters back. |
| `SmConfig.ValidIsListed` | recipes-app/iot2050-conf-webui/files/src/lib/smConfig/smConfig.js:65-106 | What the schema accepts is listed, provided every output channel is configured. |
| `SlotPage.Page.UpdateSlot` | recipes-app/iot2050-conf-webui/files/src/app/smconf/page.js:89-100 | An emptied slot empties all slots behind it; any other change touches one slot. |
| `SlotPage.Page.Handle` | recipes-app/iot2050-conf-webui/files/src/app/smconf/page.js:59-210 | Tab changes, module choices, edits and imports overwrite the state as the specification says. |
| `SlotPage.StepChained` | recipes-app/iot2050-conf-webui/files/src/app/smconf/page.js:81-104 | No event but an import breaks the chain: modules fill a prefix, and the slot before the selected tab is filled. |
| `SlotPage.EditIsConsistent` | recipes-app/iot2050-conf-webui/files/src/components/SlotInfo.js:80-128 | Every enabled edit of a slot keeps it consistent, whatever its module. |
| `SlotPage.DefaultIsConsistent` | recipes-app/iot2050-conf-webui/files/src/components/SlotInfo.js:81-112 | Every module starts consistent. |
| `Effects.ChooseShows` | recipes-app/iot2050-conf-webui/files/src/components/SlotInfo.js:80-112 | Choosing a module puts exactly that module into the shown slot, exported with the entries of its default, and leaves the other slots and the tab alone. |
| `Effects.DefaultShows` | recipes-app/iot2050-conf-webui/files/src/components/SlotInfo.js:80-112 | Every number on the menu has its own default page, with the exported entries given number by number. |
| `Effects.Menu` | recipes-app/iot2050-conf-webui/files/src/components/SlotInfo.js:114-125 | The article numbers on the menu. |
| `Effects.ChooseNone` | recipes-app/iot2050-conf-webui/files/src/components/SlotInfo.js:107-109 | Choosing 'None' empties the shown slot and all behind it and leaves those before it alone. |
| `Effects.TabShows` | recipes-app/iot2050-conf-webui/files/src/app/smconf/page.js:59-100 | Choosing a tab shows it; no other slot changes, and the shown one keeps its module and, unless it is a meter, all entries of a consistent slot. |
| `Effects.EditStays` | recipes-app/iot2050-conf-webui/files/src/app/smconf/page.js:89-104 | An edit changes the shown slot only, and never its module. |
| `Effects.EditReaches` | recipes-app/iot2050-conf-webui/files/src/components/SlotInfo.js:20-79 | Within the slot an edit reaches the channel or entry it names. |
| `Effects.PageOffers` | recipes-app/iot2050-conf-webui/files/src/components/SlotInfo.js:114-125 | Every other tab behind a filled slot and every other entry of the menu can be chosen. |
| `Effects.SlotOffers` | recipes-app/iot2050-conf-webui/files/src/components/SlotInfo.js:20-79 | Which entries of a whole module can be edited, with which labels. |
| `Effects.PageEdits` | recipes-app/iot2050-conf-webui/files/src/components/SlotInfo.js:20-79 | The edits of a slot are those its module page offers. |
| `SlotPage.GoodExport` | recipes-app/iot2050-conf-webui/files/src/app/smconf/page.js:54-104 | A good page exports a configuration that passes the schemas and the semantic validation and can be written. |
| `SlotPage.EveryRunIsAccepted` | recipes-app/iot2050-conf-webui/files/src/app/smconf/page.js:59-104 | Every run without an import ends with such a configuration. |
| `SlotPage.ImportMakesHolesIff` | recipes-app/iot2050-conf-webui/files/src/app/smconf/page.js:154-201 | After a successful import no run can make a hole exactly when the imported modules fill a prefix of the slots and the slot before the selected tab, which the import keeps, is one of them. |
| `SlotPage.HoleReached` | recipes-app/iot2050-conf-webui/files/src/app/smconf/page.js:154-201 | From its start the page reaches a hole: choose a module, select the second tab, import six empty slots, which both validations accept, and choose a module. |
| `ImportLaws.ImportSucceedsIff` | recipes-app/iot2050-conf-webui/files/src/lib/smConfig/smConfig.js:65-106 | Of the configurations the schemas accept, an import succeeds for those whose SM1223 outputs are all configured, and leaves the page as it was for the others. |
| `ImportLaws.ImportStaysAcceptedIff` | recipes-app/iot2050-conf-webui/files/src/app/smconf/page.js:154-201 | For every state of the page and every successful import of a schema-valid configuration: all later runs of tab changes, module choices and edits end with a configuration both validations accept, exactly when the imported one is semantically valid, has a module before the selected tab, is harmless in every RTD and SM1238 slot, and has no broken-wire alarm that slips past a shown AI page of the same module. |
| `ImportLaws.CarefulRunsAreAccepted` | recipes-app/iot2050-conf-webui/files/src/app/smconf/page.js:59-201 | Every run from the start, with any number of such harmless imports in between, ends accepted. |
| `ImportLaws.AlarmSlips` | recipes-app/iot2050-conf-webui/files/src/app/smconf/page.js:154-201 | From its start the page reaches a configuration the schemas refuse: choose an SM1231 AI, import four voltage channels with broken-wire alarms, which both validations accept, and make a pair current channels. |
| `ImportLaws.RunSane` | recipes-app/iot2050-conf-webui/files/src/app/smconf/page.js:59-104 | Every run without an import keeps the chain, a settled shown slot and importable slots behind the other tabs. |
| `ImportLaws.SaneIsAccepted` | recipes-app/iot2050-conf-webui/files/src/app/smconf/page.js:54-104 | A page in such a state exports a configuration both validations accept. |
| `EndToEnd.EndToEndChain` | recipes-app/iot2050-conf-webui/files/src/lib/smConfig/smConfig.js:26-106 | For every page whose entries hold offered labels and numbers in range, and any checksum function: export, encode, decode, import, export gives the same device configuration. |
| `EndToEnd.EveryRunDeploys` | recipes-app/iot2050-eio-manager/files/iot2050_eio_config.py:634-639 | Whatever is done on the page short of an import passes both validations, is written as a blob and comes back unchanged. |
| `EndToEnd.RetrieveDeploy` | recipes-app/iot2050-conf-webui/files/src/app/smconf/page.js:120-184 | Retrieving an accepted configuration with all outputs configured and deploying it unedited writes the same blob. |
| `EndToEnd.ImportExport` | recipes-app/iot2050-conf-webui/files/src/lib/smConfig/smConfig.js:26-106 | Importing a listed configuration and exporting it changes descriptions only. |
| `EndToEnd.SameModuleSameExport` | recipes-app/iot2050-conf-webui/files/src/lib/smConfig/smConfig.js:26-63 | What an export writes, description included, depends on the module alone. |
| `EndToEnd.DescriptionsAgreeIff` | recipes-app/iot2050-eio-manager/files/iot2050_eio_config.py:91-103 | The description a configuration read from the device has is the one the page writes, exactly unless the module is the SM1223 DC. |

## Left out

- The unpack statement that the deserializers assemble as text and execute is modelled as the assignments
  it makes (`Modules.ReadBack`).
- CRC-32, MD5 and `mkenvimage` are arbitrary functions; an environment image only has the size asked for.
- Surplus keys of a YAML document, booleans given where the schema wants integers, and floating point
  numbers typed into a slider are not representable.
- Article numbers carry characters up to 127 faithfully; other encodings are errors, as in the code.
- Updater.Update: fault-free flash; faults, in any pattern, are in `UpdateRun.Run.Program`, which in turn
  abstracts contents to digests. Partitions share one erase size and are block aligned, as on one NOR chip;
  mixed erase sizes, which the code would also accept, are not modelled.
- Updater.WriteBootloader: partitions of differing erase sizes or with an incomplete last block are not modelled.
- Updater.ReadBootloader: the same.
- Updater.UpdateBootloader: the same.
- Reach.MeterReaches: one direction only. A channel that goes from 0E straight to a type that does not use it keeps
  its tick (`Effects.DirectionStays`); which other entries such a page can have depends on the way there.
- UpdateOnFlash.SuccessIsDeployed: fault-free flash, as for `Updater.Update`.
- Framing.SplitSlots: the splitter calls itself once per slot, so that Python's recursion limit ends it on chains
  of about a thousand slots; the model has no such limit.
- RtdPage.Editor.UpdateChannelTempCoeff: for a range outside the thermal ones the code throws a TypeError, since
  no menu applies; the model returns with no menu. No enabled edit of a consistent channel gets there.
- `UpdateRun.Run.Program`: the answer to the final reboot question and the reminder before an error exit
  change neither flash nor exit code; parsing of the tarball, version and board checks are one outcome.
- `EnvMerge.GenerateEnvFirmware`: lines are whole texts; a default file without a final line break is not
  modelled.
- `Cp2102n.Controller.Commit`: a read-back that fails halfway is represented by an arbitrary block.
- `Cp2102n.Session`: USB lookup, the hardware reset and the transceiver are not modelled.
- `EventRecord.Journal.Poll`: one round; the endless loop repeats it. Other event types and writers are not
  modelled.
- React rendering is reduced to the values the handlers and effects leave; a typed number loses the focus
  before any other event.
- `SlotPage.Page.Handle`: file dialogs, download and the network around import, export, deploy and retrieve.
- `MeterPage.Editor.UpdateSlider`: one method for the four handlers that differ only in the field they copy.
- The pages of SM1221 and SM SENS DI have no dependent entries; only their translations are modelled.
- gRPC services, command line wrappers, time syncing, LEDs, notifications and the power and sensor events.
- Board setup menus, the transceiver driver, sensors and the module firmware updater: no invariant beyond
  one statement.
