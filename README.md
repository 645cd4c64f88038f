# daqhats in Dafny

A model of the core of daqhats, the library and tools for the MCC DAQ HAT
boards on a Raspberry Pi: the MCC 118 (voltage inputs), MCC 128 (voltage
inputs with modes and ranges), MCC 134 (thermocouples), MCC 152 (analog
outputs and digital I/O) and MCC 172 (IEPE sound and vibration inputs).
The model covers four groups of code. Everything is stated over
unbounded integers, reals and sequences, with the C widths written out
where they matter.

1. The C library `libdaqhats`:
   - the SPI frames the boards' microcontrollers speak;
   - the ring buffer a scan thread fills and `a_in_scan_read` drains;
   - the scan-start checks, buffer sizes, read thresholds and command payloads;
   - the reference-counted table of open boards;
   - the configuration bytes of each board;
   - the MCC 134 factory data and code classification;
   - the MCC 152 DAC frames and I/O-expander register cache;
   - the HAT ID EEPROM acceptance rules of `hat_list`.
2. The two firmware updaters: Intel HEX records with a virtual flash and
   a CRC-16 for the MCC 118, and a frame file and bootloader status loop
   for the MCC 128.
3. The Python bindings, where they do more than call the library:
   argument checks, the mapping of result codes to exceptions, status
   decoding, read sizing and the MCC 152 dictionary writes.
4. The examples' own logic:
   - the mask and option helpers;
   - the display windows of the C data loggers and the MCC 134 CSV log file;
   - the state machines and strip charts of the two web servers.

## How the model is built

- Hardware, files, clocks and threads are parameters. Each SPI or I2C
  transfer, file read, allocation or thread creation is given its outcome
  (`Mcc118.StartOracles`, `Mcc152Dio.I2cReply`, `Mcc128Firmware.Poll`).
  The frames it sends are returned, in order.
- The scan engine is one class, `ScanEngine.ScanDevice`, with the
  per-board constants of the MCC 118, 128 and 172 as a `Family`. The scan
  thread is one `ProducerStep`, interleaved explicitly with the passes of
  `Read`. Each pass of `Read` receives whether the timeout has run out.
- Code that changes state in place is a class whose methods are proved
  against a function on values. This covers the device table, the MCC 152
  expander cache, the virtual flash, the frame cursor, the display
  buffers and the chart data. Each method's `ensures` ties the new state
  to that function (for example `Mcc152Dio.DioBus.RegWrite` against
  `Mcc152Dio.RegWriteStep`), and the lemmas are stated about the function.
- Python results are `Outcome` values: `Returned` or `Raised`.
- Where the source is wrong, the rest of the model follows the evidently
  intended behaviour. The behaviour as written sits beside it in a member
  whose name ends in `AsWritten`; see Findings.
- The properties rest on the code itself. Where the code and its
  documentation differ, the model follows the code.

## Model

One row per member: the source lines it models and what its contract states.

| member | source | states |
|---|---|---|
| DaqHats.Code | include/daqhats.h:38-58 | Each result code has the value of the C enum; only RESULT_SUCCESS is 0 and none is positive. |
| DaqHats.FromCode | include/daqhats.h:38-58 | An integer that names a result code reads back as the code with that value. |
| DaqHats.CodeRoundTrip | include/daqhats.h:38-58 | Every result code converts to its integer and back to itself. |
| DaqHats.CountChannels | lib/mcc118.c:1528-1542 | The channel-counting loop of the scan starts gives the number of set bits among bits 0 to n-1 of the mask. |
| DaqHats.SetBitsSpec | lib/mcc118.c:1528-1542 | The channel list built from a mask has one entry per set bit, ascending, and holds exactly the channels whose bit is set. |
| DaqHats.PopCountByte | lib/mcc118.c:1528-1542 | A non-zero 8-bit mask selects between one and eight channels. |
| DaqHats.RegSetBit | lib/mcc152_dio.c:254 | Clearing bit i and or-ing in v << i sets bit i to v and keeps every other bit. |
| DaqHats.RegBitsDetermine | lib/mcc152_dio.c:254 | Two register bytes with the same eight bits are the same byte. |
| DaqHats.LE32 | lib/mcc118.c:1683-1690 | A 32-bit count sent low byte first decodes back to the count. |
| DataLogger.CreateSelectedChannelMask | examples/c/mcc118/data_logger/logger/logger.c:152-172 | Bit i of the mask is set exactly when check box i is checked, and no bit at or above the number of boxes is set. |
| DataLogger.NumChannels | examples/c/mcc118/data_logger/logger/logger.c:323-333 | The shift-and-test loop over a byte mask counts exactly its set bits. |
| DataLogger.NewestAppend | examples/c/mcc118/data_logger/logger/logger.c:193-245 | Keeping the newest a values, appending, then keeping the newest b is keeping the newest b of the whole history. |
| DataLogger.CopyHatDataToDisplayBuffer | examples/c/mcc118/data_logger/logger/logger.c:193-245 | The returned count is min(shown + read, window) scans, or the old count for no read; the buffer then holds the newest that many scans of what was shown followed by what was read, and nothing beyond them changes. |
| DataLogger.CopyScans | examples/c/mcc118/data_logger/logger/logger.c:204-242 | In each of the three cases (fits, overwrite, shift) the buffer prefix becomes the newest T values of shown followed by read, and the rest is unchanged. |
| DataLogger.AppendWindow | examples/c/mcc118/data_logger/logger/logger.c:206-215 | Copying the read values behind the shown ones gives the newest window of the two together. |
| DataLogger.OverwriteWindow | examples/c/mcc118/data_logger/logger/logger.c:216-225 | When more scans were read than the window holds, the last window of them is the newest window. |
| DataLogger.ShiftWindow | examples/c/mcc118/data_logger/logger/logger.c:226-241 | Moving the newest kept values to the start and appending the read ones gives the newest window. |
| DataLogger.CopyValues | examples/c/mcc118/data_logger/logger/logger.c:212-213 | memcpy between two buffers replaces exactly the n values at the target offset with the source values. |
| DataLogger.MoveDown | examples/c/mcc118/data_logger/logger/logger.c:234 | The shift copies n values from index start down to index 0, as memmove would, and leaves the rest. |
| DataLogger.FullBufferShiftOverlapsAsWritten | examples/c/mcc118/data_logger/logger/logger.c:234 | Once the window is full, every read of fewer than half a window of scans takes its memcpy over overlapping ranges. |
| DataLogger.CopyDataToXYArrays | examples/c/mcc118/data_logger/logger/logger.c:249-274 | For each sample from start_sample up to g_sample_count, X gets the sample number and Y the value stride apart from the start index; the rest of both arrays is unchanged. |
| DataLogger.ReadError | examples/c/mcc118/data_logger/logger/logger.c:362-375 | A failed read reports its code; a good read reports BUFFER_OVERRUN when status bit 1 is set, else HW_OVERRUN when bit 0 is set, else nothing. |
| DataLogger.StartSample | examples/c/mcc118/data_logger/logger/logger.c:404-405 | The first sample shown is max(0, count - window), so min(count, window) samples are shown. |
| DataLogger.Acquisition.Request | examples/c/mcc118/data_logger/logger/logger.c:357-360 | A finite acquisition asks for the scans left in its window times the channel count. |
| DataLogger.Acquisition.RequestBound | examples/c/mcc118/data_logger/logger/logger.c:357-366 | A finite acquisition never counts past its window. |
| DataLogger.Acquisition.ReadPass | examples/c/mcc118/data_logger/logger/logger.c:352-427 | One pass adds the scans read to the count and the history, reports ReadError, and stops on an error, a failed log write, or a finite window filled. |
| DataLogger.Acquisition.PlotChannel | examples/c/mcc118/data_logger/logger/logger.c:400-417 | The j-th selected channel's arrays get the sample numbers of the shown window and that channel's values from the history. |
| DataLogger.PassKeepsWindow | examples/c/mcc118/data_logger/logger/logger.c:393-396 | After a pass the display buffer holds the newest window of the whole history of scans read. |
| DataLogger.WindowIndex | examples/c/mcc118/data_logger/logger/logger.c:265-272 | Value k*nc + j of the shown window is sample start + k of channel j in the history. |
| DataLogger.ShownRate | examples/c/mcc118/data_logger/logger/logger.c:478-484 | When the library refuses the request the rate box keeps the entered rate. |
| DataLogger.StartRateNeverCorrectedAsWritten | examples/c/mcc118/data_logger/logger/logger.c:463-484 | As written, chanMask is never loaded from g_chan_mask, the count is 0, the library answers BAD_PARAMETER, and the rate box never changes. |
| DataLogger.StartRateIsActual | examples/c/mcc118/data_logger/logger/logger.c:469-484 | With the channels counted, an accepted selection shows the actual rate, CLOCK_TIMEBASE over (divider + 1). |
| DataLogger.StartOptions | examples/c/mcc118/data_logger/logger/logger.c:486-492 | The scan options are OPTS_CONTINUOUS exactly for a continuous acquisition and OPTS_DEFAULT otherwise. |
| DeviceTable.IdCheck | lib/mcc128.c:1207-1243 | Up to two CMD_ID attempts: a success keeps the raised reference count, any failure releases the entry (as written) or only this open's reference (corrected). |
| DeviceTable.OpenEntry | lib/mcc118.c:1059-1201 | A successful open adds exactly one reference and a failed one leaves the count unchanged (except the MCC 134 thread failure); a foreign EEPROM product ID is INVALID_DEVICE; a re-open of a board without ID check always succeeds. |
| DeviceTable.OpenEntryAsWritten | lib/mcc128.c:1224-1229 | As written, an ID mismatch on a board with an ID check frees the entry whatever its reference count was. |
| DeviceTable.SharedOpenFreesEntry | lib/mcc118.c:1188-1194 | A second open of an MCC 118 whose ID reply is foreign frees the entry the first handle still uses. |
| DeviceTable.OpenCorrectionMinimal | lib/mcc118.c:1076-1158 | The corrected open returns the same result codes as the source and differs from it only for an entry that was already open. |
| DeviceTable.CloseEntry | lib/mcc118.c:1231-1238 | close drops exactly one reference. |
| DeviceTable.OpenCloseRestores | lib/mcc118.c:1159-1165 | A successful open followed by close restores the reference count. |
| DeviceTable.HandleTable.constructor | lib/mcc118.c:195 | The library starts with no address allocated. |
| DeviceTable.HandleTable.IsOpen | lib/mcc118.c:1206-1217 | is_open is true exactly for a valid address with an allocated entry. |
| DeviceTable.HandleTable.Open | lib/mcc118.c:1059-1201 | BAD_PARAMETER for an address of 8 or more; otherwise only that address's entry changes, as OpenEntry says. |
| DeviceTable.HandleTable.Close | lib/mcc118.c:1222-1241 | BAD_PARAMETER and no change unless the entry is allocated; otherwise SUCCESS and one reference fewer at that address only. |
| CExampleUtils.Channels | examples/c/daqhats_utils.h:238-258 | The channel list of a 32-bit mask holds exactly the channels whose bit is set, one per set bit. |
| CExampleUtils.Numerals | examples/c/daqhats_utils.h:211-232 | Each channel number is written as its decimal numeral, in list order. |
| CExampleUtils.ChanMaskToArray | examples/c/daqhats_utils.h:238-258 | The array receives the channel list of the mask in ascending order, the result is its length, nothing past it is written, and a NULL array gives 0. |
| CExampleUtils.ChanMaskToString | examples/c/daqhats_utils.h:211-232 | The channel numerals joined by ", "; a zero mask leaves no comma for the final store and is an error value. |
| CExampleUtils.Present | examples/c/daqhats_utils.h:51-86 | Flag k of the five known options is present exactly when bit k of options is set. |
| CExampleUtils.OptionNamesMembers | examples/c/daqhats_utils.h:51-86 | The option list names exactly the flags that are set and is empty exactly when none of the five is. |
| CExampleUtils.OptionsToString | examples/c/daqhats_utils.h:51-86 | OPTS_DEFAULT for 0; otherwise the present flag names joined by ", ", or an error value when no known flag is set. |
| CExampleUtils.CutNames | examples/c/daqhats_utils.h:84 | Cutting the strcat result at its last comma yields the joined names, or nothing when there are none. |
| CExampleUtils.TriggerModeNameRoundTrip | examples/c/daqhats_utils.h:91-114 | The four trigger modes have distinct names; any other code is shown as rising edge. |
| CExampleUtils.InputModeName | examples/c/daqhats_utils.h:119-135 | SINGLE_ENDED exactly for mode 0; every other mode is DIFFERENTIAL. |
| CExampleUtils.InputRangeNameRoundTrip | examples/c/daqhats_utils.h:140-162 | The four ranges have distinct names; any other code is shown as +/- 1 V. |
| CExampleUtils.TcTypeNameRoundTrip | examples/c/daqhats_utils.h:167-205 | Thermocouple types 0 to 7 have distinct one-letter names; type C and every other code are shown as DISABLED. |
| CExampleUtils.SelectHatDevice | examples/c/daqhats_utils.h:314-393 | One board is chosen outright; with several, the entered address is stored and accepted only when a listed board has it; no board or no match is -1. |
| CExampleUtils.EntryWrapsToByte | examples/c/daqhats_utils.h:355-362 | The entered number is cut to a byte before the search, so 258 selects address 2. |
| LogFile.PathAndFilename | examples/c/mcc134/data_logger/logger/log_file.c:16-35 | The directory ends just after the last '/' and the file name holds no '/'; together they give the path back; a path without a slash has no split. |
| LogFile.PathSplitUnique | examples/c/mcc134/data_logger/logger/log_file.c:16-35 | There is only one way to split a path into a directory ending in '/' and a name without one. |
| LogFile.LogFileError | examples/c/mcc134/data_logger/logger/log_file.c:214-225 | Status -1 is MAXIMUM_FILE_SIZE_EXCEEDED, any other negative status UNKNOWN_ERROR, and a non-negative status shows nothing. |
| LogFile.Succeeded | examples/c/mcc134/data_logger/logger/log_file.c:139-144 | The number of writes that get through before the first failed one ends the loop. |
| LogFile.SucceededUnique | examples/c/mcc134/data_logger/logger/log_file.c:193-198 | The count of writes before the first failure is determined by the statuses. |
| LogFile.LabelsAt | examples/c/mcc134/data_logger/logger/log_file.c:139 | The i-th label names the i-th selected channel. |
| LogFile.LabelsMembers | examples/c/mcc134/data_logger/logger/log_file.c:132-151 | A channel is labelled exactly when it is selected. |
| LogFile.HeaderLabels | examples/c/mcc134/data_logger/logger/log_file.c:132-151 | A header written in full labels exactly the channels of the mask below max_channels, one label each, ascending. |
| LogFile.ScansFlatten | examples/c/mcc134/data_logger/logger/log_file.c:177-202 | The lines of k scans hold exactly the first k times nc values of the buffer, one scan per line. |
| LogFile.LogFile.constructor | examples/c/mcc134/data_logger/logger/log_file.c:111 | The file as fopen leaves it is empty. |
| LogFile.LogFile.Write | examples/c/mcc134/data_logger/logger/log_file.c:139 | One fprintf returns its status and appends its text only when that status is positive. |
| LogFile.LogFile.InitLogFile | examples/c/mcc134/data_logger/logger/log_file.c:117-158 | The header holds the labels of the selected channels up to the first failed write, then the newline; the error shown is that of the last write. |
| LogFile.LogFile.WriteLabels | examples/c/mcc134/data_logger/logger/log_file.c:132-151 | The labels written are the first Succeeded of the selected channels, all of them unless a write failed. |
| LogFile.LogFile.WriteLogFile | examples/c/mcc134/data_logger/logger/log_file.c:163-212 | One line per scan of the interleaved buffer, stopping at the first failed write; the error shown is that of the last write. |
| LogFile.LogFile.WriteScans | examples/c/mcc134/data_logger/logger/log_file.c:177-202 | The lines written are those of the first Succeeded scans. |
| LogFile.ScanValues | examples/c/mcc134/data_logger/logger/log_file.c:183-190 | The inner loop collects the values of one scan in channel order. |
| LogFile.RowStep | examples/c/mcc134/data_logger/logger/log_file.c:201 | The line of scan i follows the lines of the scans before it, starting at index i times nc. |
| LogFile.InitStopped | examples/c/mcc134/data_logger/logger/log_file.c:140-144 | A failed label write at channel i leaves out every selected channel from i on. |
| Mcc118.ContinuousTier | lib/mcc118.c:1570-1591 | A continuous scan's base buffer is 1000, 10000 or 100000 scans by rate tier, and 10000 above 100 kS/s. |
| Mcc118.BufferScans | lib/mcc118.c:1565-1603 | A finite scan buffers exactly samples_per_channel scans; a continuous one the larger of the tier and samples_per_channel. |
| Mcc118.ScanBufferSize | lib/mcc118.c:1605 | The buffer size is the scans times the channel count, reduced modulo 2^32 as the uint32_t product is. |
| Mcc118.ReadThreshold | lib/mcc118.c:1617-1633 | The read threshold is a whole number of scans between one scan and 256 samples; an unspecified or fast rate takes the largest such count, a negative rate one scan, otherwise about 100 ms of samples. |
| Mcc118.Period | lib/mcc118.c:1656-1670 | A slow rate, zero and negative rates included, saturates the period at 0xFFFFFFFF; otherwise period + 1 is the divider nearest CLOCK_TIMEBASE over the rate. |
| Mcc118.ScanOptions | lib/mcc118.c:1647-1651 | Bit 0 of the options byte is the external trigger flag and the bits above it the trigger mode when that flag is set. |
| Mcc118.StartPayload | lib/mcc118.c:1683-1692 | The 10-byte payload decodes back to the scan count and the period, little-endian, followed by the mask and the options byte. |
| Mcc118.ActualRate | lib/mcc118.c:1447-1480 | For any rate, negative ones included, SUCCESS exactly for 1 to 8 channels within 100 kS/s in total, with the actual rate times the divider equal to CLOCK_TIMEBASE; a rate too fast reports 0.0. |
| Mcc118.ActualRateAsWritten | lib/mcc118.c:1467-1477 | As written, for any rate, the result code is the corrected one and the rate agrees with it above MIN_SCAN_RATE. |
| Mcc118.SlowRateReadsInfinite | lib/mcc118.c:1477 | As written, every rate up to MIN_SCAN_RATE, 0 and negative rates included, wraps the divider to 0 and reads back as infinite; the corrected rate is finite. |
| Mcc118.StartResult | lib/mcc118.c:1510-1738 | The checks after the arguments, in the source's order: BUSY with a scan installed; then RESOURCE_UNAVAIL when the thread info cannot be allocated; then BAD_PARAMETER for too fast an internal clock; once the start is reached (ReachesStart), the start reply's own failure, else RESOURCE_UNAVAIL for a failed thread, else SUCCESS; before it only BUSY, BAD_PARAMETER or RESOURCE_UNAVAIL; SUCCESS exactly when the start is reached, accepted and the thread created. |
| Mcc118.ScanStart | lib/mcc118.c:1487-1738 | The result is BAD_PARAMETER for rejected arguments and otherwise StartResult of the scan's absence, the channel count and the oracles, so BUSY, RESOURCE_UNAVAIL, the rate BAD_PARAMETER, the start reply and SUCCESS come in the source's order; the start payload is sent exactly when every check before it passed, and nothing is sent otherwise; a thread failure after an accepted start sends CMD_AINSCANSTOP and gives RESOURCE_UNAVAIL, and no other path sends the stop; only SUCCESS installs a scan, with the buffer size, channel count and threshold the source computes and the payload it sends |
| Mcc118.CloseWithScan | lib/mcc118.c:1222-1241 | An address that is not open is BAD_PARAMETER and changes nothing; otherwise the scan is cleaned up and one reference is released. |
| Mcc118Hex.LineEnd | tools/mcc118_firmware_update.c:67 | The line ends before its first CR or LF, and there is none before that point. |
| Mcc118Hex.HexLineBytes | tools/mcc118_firmware_update.c:47-109 | No bytes for a line without a leading ':', with a bad character among those read, or when there is no room; otherwise the pairs of digits packed high nibble first, a trailing odd nibble dropped. |
| Mcc118Hex.ConvertHexLine | tools/mcc118_firmware_update.c:47-109 | The count returned is that of HexLineBytes and the buffer holds those bytes at its start; nothing is written past max. |
| Mcc118Hex.ConvertDigits | tools/mcc118_firmware_update.c:72-106 | The digit loop stores the digits it visits into the buffer and stops at the first non-hex character or when max bytes are full. |
| Mcc118Hex.StoreNibble | tools/mcc118_firmware_update.c:93-105 | A high nibble starts a byte and a low nibble completes it; only that one byte changes. |
| Mcc118Hex.EncodeHexLine | tools/mcc118_firmware_update.c:47-109 | The reference encoder: a ':' followed by two upper-case hex digits per byte and the line ending. |
| Mcc118Hex.HexLineRoundTrip | tools/mcc118_firmware_update.c:47-109 | convert_hex_line reads back exactly the bytes a line was encoded from, when they fit. |
| Mcc118Hex.Checksum | tools/mcc118_firmware_update.c:162-166 | The checksum loop computes the byte sum of the line, modulo 256. |
| Mcc118Hex.ChecksumCompletes | tools/mcc118_firmware_update.c:167-170 | A record completed by its two's-complement checksum byte sums to zero, and no other final byte does. |
| Mcc118Hex.TableIsReference | tools/mcc118_firmware_update.c:318-322 | Each entry of the nibble table is the bitwise CRC (polynomial 0x1021) of its index fed into a zero register. |
| Mcc118Hex.SourceByteStepIsReference | tools/mcc118_firmware_update.c:332-335 | The two table steps for a byte equal the bit-by-bit CRC-16/XMODEM step for that byte. |
| Mcc118Hex.CalculateCrc | tools/mcc118_firmware_update.c:325-341 | calculate_crc returns the CRC-16/XMODEM of the len bytes from start. |
| Mcc118Hex.CrcCheckValue | tools/mcc118_firmware_update.c:325-341 | The CRC of the ASCII digits 123456789 is the catalogued check value 0x31C3. |
| Mcc118Hex.CrcEmpty | tools/mcc118_firmware_update.c:328-340 | The CRC of an empty buffer is 0. |
| Mcc118Hex.TableStepIsReference | tools/mcc118_firmware_update.c:332-335 | One table step over a value whose low four bits are a nibble equals the bit-by-bit CRC-16 update with that nibble. |
| Mcc118Firmware.RecordOf | tools/mcc118_firmware_update.c:154-174 | A converted line holds a record exactly when it has at least five bytes, sums to zero modulo 256, its length byte agrees with its data and, for a type 02 or 04 record, that length is at least 2; the record then reproduces those bytes. The last two conditions are the corrections of Findings. |
| Mcc118Firmware.EncodeRecord | tools/mcc118_firmware_update.c:172-174 | The reference encoding of a record: length, offset high byte first, type, data and checksum, summing to zero. |
| Mcc118Firmware.RecordRoundTrip | tools/mcc118_firmware_update.c:154-174 | Every well-formed record reads back from its encoding. |
| Mcc118Firmware.RecordDetermined | tools/mcc118_firmware_update.c:154-174 | Every accepted line is exactly the encoding of the record read from it. |
| Mcc118Firmware.LineRoundTrip | tools/mcc118_firmware_update.c:154-174 | A record written out as a hex line that fits the 128-byte buffer reads back as that record. |
| Mcc118Firmware.ExtAfter | tools/mcc118_firmware_update.c:192-201 | Type 02 sets the segment base to the word times 16 and type 04 the linear base to the word times 65536; other types leave both bases. |
| Mcc118Firmware.FullAddress | tools/mcc118_firmware_update.c:184 | The load address is offset plus both bases whenever that sum fits in 32 bits. |
| Mcc118Firmware.VersionAt | tools/mcc118_firmware_update.c:281-294 | A version is read exactly when the record covers both bytes of its address, low byte first. |
| Mcc118Firmware.CheckRecord | tools/mcc118_firmware_update.c:262-309 | A data record fails the check exactly when its end reaches TOTAL_LENGTH, and otherwise raises the highest end and picks up the versions it covers; 02 and 04 move the bases. |
| Mcc118Firmware.CheckLine | tools/mcc118_firmware_update.c:235-311 | Once failed, the check stays failed; a line that passes is a record RecordOf accepts (so a short type 02 or 04 record fails, as corrected) that fits the flash. |
| Mcc118Firmware.VerifyStaysFailed | tools/mcc118_firmware_update.c:235 | After the first bad line the rest of the file does not change the outcome. |
| Mcc118Firmware.VerifyPrefix | tools/mcc118_firmware_update.c:209-316 | A file that passes the check passes it on every prefix. |
| Mcc118Firmware.VerifiedLineFits | tools/mcc118_firmware_update.c:209-316 | In a file that passes, every line is an accepted record and every data record lies inside the virtual flash. |
| Mcc118Firmware.DataEndAsWritten | tools/mcc118_firmware_update.c:271-274 | The source's end address is the uint32 sum of the start and the count, which wraps past 2^32. |
| Mcc118Firmware.WrappedEndPassesAsWritten | tools/mcc118_firmware_update.c:266-279 | A one-byte record at 0xFFFFFFFF wraps its end to 0 and passes the source's range test. |
| Mcc118Firmware.WrappedEndRefused | tools/mcc118_firmware_update.c:266-279 | The corrected check refuses that record. |
| Mcc118Firmware.PayloadAsWritten | tools/mcc118_firmware_update.c:190 | The source copies rec_count bytes from offset 4 of the buffer, whatever the line held. |
| Mcc118Firmware.ShortRecordCopiesChecksum | tools/mcc118_firmware_update.c:156-190 | The line :01000000FF passes the count and checksum tests, yet its only following byte is the checksum, which the source copies into flash; the corrected reader refuses it. |
| Mcc118Firmware.ExtWordAsWritten | tools/mcc118_firmware_update.c:192-201 | As written, a type 02 or 04 record takes its word from bytes 4 and 5 of the 128-byte buffer, high byte first, whatever its length byte says. |
| Mcc118Firmware.ShortSegmentRecordReadsChecksum | tools/mcc118_firmware_update.c:154-201 | The line :00000002FE passes the count and checksum tests, yet holds no word: the segment word the source reads is the checksum 0xFE followed by the byte an earlier line left in the buffer; the corrected reader refuses the line. |
| Mcc118Firmware.InitialFsignWord | tools/mcc118_firmware_update.c:134 | After init_virtual_flash the FSIGN word reads FF 7F FF 00. |
| Mcc118Firmware.InitialFlashErased | tools/mcc118_firmware_update.c:119-129 | Every other byte is 0xFF, except each fourth byte, which is 0. |
| Mcc118Firmware.Stored | tools/mcc118_firmware_update.c:180-204 | Only a data record changes the flash, and the length of the flash never changes. |
| Mcc118Firmware.StoredReadsBack | tools/mcc118_firmware_update.c:190 | A stored data record reads back at its load address and every other byte is unchanged. |
| Mcc118Firmware.VirtualFlash.Init | tools/mcc118_firmware_update.c:112-135 | Both bases are cleared and the flash holds the initial image. |
| Mcc118Firmware.VirtualFlash.ProcessHexLine | tools/mcc118_firmware_update.c:137-207 | A line that is not a record RecordOf accepts, a type 02 or 04 record with fewer than two data bytes among them, returns 0 and changes nothing; a record is applied to the bases and the flash and its byte count, type and load address returned. |
| Mcc118Firmware.VirtualFlash.Store | tools/mcc118_firmware_update.c:190 | The memcpy leaves the flash as Stored says. |
| Mcc118Firmware.ReadRecord | tools/mcc118_firmware_update.c:238-260 | The conversion and tests give the line's record as RecordOf reads it, refusing a type 02 or 04 record with fewer than two data bytes, with its bytes at the start of the buffer, or nothing and count 0. |
| Mcc118Firmware.CheckData | tools/mcc118_firmware_update.c:264-295 | The data branch of the check computes what CheckRecord says. |
| Mcc118Firmware.VerifyHexFile | tools/mcc118_firmware_update.c:209-316 | verify_hex_file returns the outcome of the check over the lines and the versions it found; with the corrected reader a short type 02 or 04 record fails the file. |
| Mcc118Firmware.LoadLine | tools/mcc118_firmware_update.c:454-485 | A failed pass stays failed; a line that is not a record RecordOf accepts, a short type 02 or 04 record among them, is skipped; a record is applied to the image and sent unless it is data outside the user region. |
| Mcc118Firmware.LoadStaysFailed | tools/mcc118_firmware_update.c:478-484 | After a failed write nothing more is sent. |
| Mcc118Firmware.LoadTracksVerify | tools/mcc118_firmware_update.c:454-485 | While no write fails, the writing pass sees the same bases as the check did. |
| Mcc118Firmware.SentAreRecords | tools/mcc118_firmware_update.c:478 | Every buffer handed to the bootloader is one complete record, checksum included. |
| Mcc118Firmware.WriteLine | tools/mcc118_firmware_update.c:456-484 | One pass of the writing loop advances the pass state by one line. |
| Mcc118Firmware.WriteRecords | tools/mcc118_firmware_update.c:454-485 | For a checked file, the write loop sends exactly the records LoadAll lists, fails exactly as LoadAll does, and leaves the image LoadAll computes. |
| Mcc118Firmware.WrittenStaysFailed | tools/mcc118_firmware_update.c:478-484 | After a failed write the pass state no longer changes. |
| Mcc118Firmware.UpdateFirmware | tools/mcc118_firmware_update.c:365-521 | Exit 0 exactly when every step succeeds, no write fails, the device CRC equals the CRC of the image's user region and the jump succeeds; nothing is sent before the file is checked and the flash erased. |
| Mcc118Firmware.ParseArguments | tools/mcc118_firmware_update.c:688-724 | Two arguments, or three starting with -b, naming an address below 8 and a file are accepted; -b selects the bootloader. |
| Mcc118Firmware.MainExit | tools/mcc118_firmware_update.c:726-766 | Exit 0 exactly when the arguments are accepted, the update did not fail, and the board reopens and reports its version. |
| Mcc118Firmware.LoadLineSendsRecord | tools/mcc118_firmware_update.c:454-485 | Processing one line of the writing pass sends at most the one buffer it converted, and every buffer sent so far is a complete record with a valid checksum. |
| Mcc118Firmware.WritePass | tools/mcc118_firmware_update.c:454-485 | The writing loop over the lines of a checked file ends with the image, the buffers sent and the failure flag of the reference pass LoadPrefix over every line: sendable records in order, none after the first failed write. |
| Mcc128.QueueEntryRoundTrip | lib/mcc128.c:1898-1900 | A queue entry decodes back to the range, mode and channel it was built from, as queue_start decodes it. |
| Mcc128.Entries | lib/mcc128.c:1894-1903 | One queue entry per listed channel, each with the device's range and mode. |
| Mcc128.CastU32 | lib/mcc128.c:1072-1073 | An in-range double converts to its truncation. |
| Mcc128.CalcScanPeriod | lib/mcc128.c:1057-1088 | SearchedPeriod: the divider is a power of two up to 256, every smaller one gives a period above 0xFFFF, and the period is the one that divider gives, or 0xFFFF at divider 256. |
| Mcc128.SearchedPeriodUnique | lib/mcc128.c:1057-1088 | The divider search has exactly one outcome per rate, so the period and divider SearchedPeriod describes are determined by the rate. |
| Mcc128.PacedRate | lib/mcc128.c:1600-1601 | The paced rate is positive and at most CLOCK_TIMEBASE. |
| Mcc128.ActualRate | lib/mcc128.c:1576-1605 | For any rate, negative ones included, SUCCESS exactly for 1 to 8 channels within 100 kS/s in total, then CLOCK_TIMEBASE / (divider + 1) / (period + 1) for the one divider and period the search yields (SearchedPeriod, unique by SearchedPeriodUnique); a rate too fast reports 0.0. |
| Mcc128.ReadThreshold | lib/mcc128.c:1740-1759 | The threshold is a whole number of scans between one scan and MAX_SAMPLES_READ, about 100 ms of samples, 256 samples for an unknown or fast rate and one scan for a negative rate. |
| Mcc128.ThresholdAsMcc118 | lib/mcc128.c:1749-1752 | The MAX_SAMPLES_READ cap never binds, so the threshold equals the MCC 118's. |
| Mcc128.ScanOptions | lib/mcc128.c:1773-1777 | Bits 0 to 2 hold the queue length minus one, bit 3 the external trigger flag and the bits above it the trigger mode when that flag is set. |
| Mcc128.StartPayload | lib/mcc128.c:1801-1812 | The payload decodes back to the scan count, the 16-bit period, the divider, the options byte and then the queue. |
| Mcc128.Board.constructor | lib/mcc128.c:1140-1147 | A freshly allocated board is zeroed by calloc, so single-ended in the +/- 10 V range, and holds the default calibration of _set_defaults. |
| Mcc128.Board.CalibrationWrite | lib/mcc128.c:1398-1416 | BAD_PARAMETER for a bad address or range, then BUSY during a scan; only SUCCESS stores the slope and offset of that range. |
| Mcc128.Board.ModeWrite | lib/mcc128.c:1421-1438 | BAD_PARAMETER for a bad address or mode, then BUSY during a scan; only SUCCESS changes the mode. |
| Mcc128.Board.RangeWrite | lib/mcc128.c:1459-1476 | BAD_PARAMETER for a bad address or range, then BUSY during a scan; only SUCCESS changes the range. |
| Mcc128.Board.ChannelLimit | lib/mcc128.c:1508-1509 | Eight channels single-ended and four differential. |
| Mcc128.Board.AInRead | lib/mcc128.c:1497-1550 | BAD_PARAMETER and nothing sent for a channel the mode does not offer; otherwise the command byte encodes range, mode and channel, and the raw value is MAX_CODE minus the code. |
| Mcc128.Board.BuildQueue | lib/mcc128.c:1887-1903 | One entry per set mask bit, ascending, each with the device's range and mode. |
| Mcc128.Board.ScanStart | lib/mcc128.c:1865-1908 | BAD_PARAMETER with nothing sent for the bad arguments or a differential mask above 0x0F, before anything else; otherwise the result is Mcc118.StartResult for the mask's channel count (BUSY, allocation, rate, start-reply and thread results in the source's order); the payload is sent exactly when every check before it passed and is then StartFrame of the mask's queue (scan count, searched period and divider or zeros with an external clock, options byte, queue); CMD_AINSCANSTOP is sent exactly when the board accepted the start and the thread could not be created |
| Mcc128.Board.QueueStart | lib/mcc128.c:1607-1858 | BAD_PARAMETER with nothing sent for a bad address, an empty or over-long queue or a finite scan of no samples; otherwise the result is Mcc118.StartResult for the queue length (BUSY, allocation, rate, start-reply and thread results in the source's order); the payload is sent exactly when every check before it passed and is then StartFrame, whose bytes 4-6 hold the searched period and divider with the internal clock; a thread failure after an accepted start sends CMD_AINSCANSTOP and gives RESOURCE_UNAVAIL; only SUCCESS installs a scan, with the channel count, the ranges and the threshold |
| Mcc128.Board.StartScan | lib/mcc128.c:1772-1858 | The result is the start reply when it failed, RESOURCE_UNAVAIL when the thread cannot be created, and SUCCESS otherwise; the payload sent is StartFrame: the scan count (0 when continuous), the period in bytes 4-5 and the divider code in byte 6 as SearchedPeriod states (both 0 with an external clock), the options byte and the queue; a failure leaves the scan as it was, CMD_AINSCANSTOP is sent exactly after an accepted start whose thread cannot be created, and success installs a fresh running scan with an empty buffer of the given size, the queue's ranges and the read threshold |
| Mcc128Firmware.NextFrameAsWritten | tools/mcc128_firmware_update.c:52-97 | As written, the end of file is reached only at or past its size, and a frame's length word is read at the index whatever remains of the file. |
| Mcc128Firmware.NextFrameAt | tools/mcc128_firmware_update.c:52-97 | No frame at or past the end of the file; a frame with the 13 02 FD 67 signature is its big-endian length plus two bytes, lying inside the file; anything else is an invalid signature. |
| Mcc128Firmware.FrameReadBack | tools/mcc128_firmware_update.c:52-97 | A signed frame stored anywhere in the file is read back whole at its own offset. |
| Mcc128Firmware.AsWrittenAgreesInside | tools/mcc128_firmware_update.c:52-97 | Where a frame fits inside the file, the source's reading and the corrected one agree. |
| Mcc128Firmware.HeaderReadPastEndAsWritten | tools/mcc128_firmware_update.c:61-72 | A one-byte file passes the signature test on the memory after it and yields a six-byte frame; the corrected reader refuses it. |
| Mcc128Firmware.FrameCursor.constructor | tools/mcc128_firmware_update.c:140 | The cursor starts at index 0. |
| Mcc128Firmware.FrameCursor.GetNextFrame | tools/mcc128_firmware_update.c:52-97 | 0 at the end of the file and -1 on a bad signature, keeping the index; otherwise the frame length, the index moved past the frame and last_frame set exactly when that reaches the end. |
| Mcc128Firmware.StartAsWritten | tools/mcc128_firmware_update.c:115 | As written, last_frame starts with whatever the uninitialised variable holds. |
| Mcc128Firmware.StatusClass | tools/mcc128_firmware_update.c:244 | The state is the status byte's top two bits. |
| Mcc128Firmware.Step | tools/mcc128_firmware_update.c:196-325 | Without NCHG the loop finishes; otherwise the status is read, a bad first ID or a frame CRC failure or unknown status is an error, 0xC0 and 0x40 send the unlock, 0x80 sends the next frame or finishes at the end of the file, and 0x04 finishes on the last frame. |
| Mcc128Firmware.Run | tools/mcc128_firmware_update.c:196-325 | The loop stops early only once finished or failed. |
| Mcc128Firmware.Dispatch | tools/mcc128_firmware_update.c:213-322 | One pass of the loop body leaves the flags, the cursor and the transfers that Step says. |
| Mcc128Firmware.StatusLoop | tools/mcc128_firmware_update.c:192-325 | The loop computes what Run says from the starting flags. |
| Mcc128Firmware.UpdateResult | tools/mcc128_firmware_update.c:330-338 | update_firmware returns 1 exactly after an error; a timeout waiting for NCHG returns 0. |
| Mcc128Firmware.StepCases | tools/mcc128_firmware_update.c:257-278 | The cursor moves only when a frame is sent, and then by exactly that frame. |
| Mcc128Firmware.StatusFinishSentAll | tools/mcc128_firmware_update.c:265-309 | A pass that finishes on the bootloader's status, not on a missing NCHG, has sent the whole file (corrected start). |
| Mcc128Firmware.RunChain | tools/mcc128_firmware_update.c:196-325 | The frames a run sends are the file's frames in order, none skipped, repeated or cut short. |
| Mcc128Firmware.EarlyPassFinishesAsWritten | tools/mcc128_firmware_update.c:303-310 | As written, a FRAME_CRC_PASS read before any frame was sent finishes the update when the uninitialised last_frame is true; with last_frame false it does not. |
| Mcc128Firmware.AsInt32 | tools/mcc128_firmware_update.c:343 | The int that receives the %u scan holds the 32 bits as two's complement. |
| Mcc128Firmware.AddressAsWritten | tools/mcc128_firmware_update.c:350-361 | As written, two arguments and a scanned address not above 7 once stored in an int are accepted. |
| Mcc128Firmware.NegativeAddressAcceptedAsWritten | tools/mcc128_firmware_update.c:356-357 | The address 4294967295 is held as -1 and passes the check; the corrected check refuses it. |
| Mcc128Firmware.Address | tools/mcc128_firmware_update.c:350-361 | Accepted exactly for two arguments and an address from 0 to 7, which is returned. |
| Mcc128Firmware.AddressAgreesOnSmall | tools/mcc128_firmware_update.c:356-357 | For addresses below 2^31 the corrected and as-written checks agree. |
| Mcc128Firmware.AttemptsAsWritten | tools/mcc128_firmware_update.c:375-390 | As written, the loop stops only at the first success, and never when every attempt fails. |
| Mcc128Firmware.RetryNeverGivesUpAsWritten | tools/mcc128_firmware_update.c:390 | However many attempts fail, the check as written never gives up. |
| Mcc128Firmware.CheckDevice | tools/mcc128_firmware_update.c:375-396 | At most five attempts; success exactly when one of them succeeds, stopping at the first. |
| Mcc128Firmware.MainExit | tools/mcc128_firmware_update.c:341-401 | Exit 0 exactly after accepted arguments, an update without error and a successful device check. |
| Mcc128Firmware.Proceeds | tools/mcc128_firmware_update.c:120-186 | The update goes on only with a readable file and the key y or Y, never for an INVALID_DEVICE open, and always for a successful open and y or Y. |
| Mcc128Firmware.StepSound | tools/mcc128_firmware_update.c:52-97 | One pass of the update loop keeps the file cursor within the file and sets last_frame only when the cursor has reached the end. |
| Mcc128Firmware.RunSound | tools/mcc128_firmware_update.c:196-325 | The whole update loop keeps that cursor property, so a finish on last_frame comes only after the last frame of the file. |
| Mcc134.Low24 | lib/mcc134.c:1116-1123 | The low 24 bits of a code agree with it modulo 2^24. |
| Mcc134.Signed24 | lib/mcc134.c:1116-1123 | The sign extension of a 24-bit code lies in the code range, is negative exactly when bit 23 is set, and agrees with the pattern modulo 2^24. |
| Mcc134.Signed24RoundTrip | lib/mcc134.c:1116-1123 | Every value in the code range is the sign extension of exactly one 24-bit pattern. |
| Mcc134.OpenVoltageIsFullScale | lib/mcc134.c:34-46 | OPEN_TC_VOLTAGE is the full-scale code times the volts per code, just below RANGE_MAX. |
| Mcc134.RawCodeReadsBack | lib/mcc134.c:1095-1128 | With NOSCALEDATA and NOCALIBRATEDATA the value is the sign-extended code, for an open code too. |
| Mcc134.UncalibratedVoltageRange | lib/mcc134.c:1095-1142 | Scaled but uncalibrated, the value is the common-mode value or a voltage inside the input range, and the open voltage for an open code. |
| Mcc134.SpecialValuesOutOfRange | include/mcc134.h:59-63 | The three special values lie below the input range, in the order open, overrange, common-mode. |
| Mcc134.ChannelFourPassesAsWritten | lib/mcc134.c:1067-1072 | As written, channel 4 passes the channel check although the board has channels 0 to 3. |
| Mcc134.ChannelChecksDiffer | lib/mcc134.c:1067-1072 | The source's check and the corrected one differ on channel 4 only. |
| Mcc134.FirstSettled | lib/mcc134.c:1082-1153 | The wait ends at the first snapshot that is valid or holds an error. |
| Mcc134.Board.constructor | lib/mcc134.c:742-795 | open leaves every channel disabled, an update interval of one second, no valid reading, and the factory data of the EEPROM. |
| Mcc134.Board.TcTypeWrite | lib/mcc134.c:969-999 | SUCCESS exactly for a valid address and channel and a known type or TC_DISABLED, which is stored; enabling or disabling a channel resets the readings; a failure changes nothing. |
| Mcc134.Board.TcTypeRead | lib/mcc134.c:1004-1015 | The stored type for a valid address and channel, otherwise BAD_PARAMETER. |
| Mcc134.Board.UpdateIntervalWrite | lib/mcc134.c:1020-1037 | For a valid address the interval is stored, 0 as 1; nothing else changes. |
| Mcc134.Board.UpdateIntervalRead | lib/mcc134.c:1042-1052 | The stored interval, which is never 0. |
| Mcc134.Board.CoefficientWrite | lib/mcc134.c:950-963 | For a valid address and channel only that channel's slope and offset are replaced; otherwise BAD_PARAMETER and nothing changes. |
| Mcc134.Board.CoefficientRead | lib/mcc134.c:930-945 | The channel's slope and offset for a valid address and channel, otherwise BAD_PARAMETER. |
| Mcc134.Board.SerialAndDate | lib/mcc134.c:898-925 | The serial and date are the NUL-terminated strings the factory buffers hold, shorter than the buffers. |
| Mcc134.Board.AInRead | lib/mcc134.c:1057-1156 | BAD_PARAMETER for a bad address or channel or a disabled channel; otherwise the result of the first settled reading, with the value converted as Classify says. |
| Mcc134.Board.TInRead | lib/mcc134.c:1272-1322 | The checks of a_in_read; an open thermocouple gives OPEN_TC_VALUE, a common-mode error its value, and any other voltage the cold-junction result and the table temperature. |
| Mcc134.StoredInterval | lib/mcc134.c:1027-1033 | The interval stored is never 0, and a non-zero interval is kept. |
| Mcc134Adc.Transfer | lib/mcc134_adc.c:123-192 | An invalid address is BAD_PARAMETER and a never-opened SPI device RESOURCE_UNAVAIL, before anything is sent; otherwise the driver's outcome. |
| Mcc134Adc.MuxByte | lib/mcc134_adc.c:313 | The INPMUX byte holds the positive input in its high nibble and the negative input in its low nibble. |
| Mcc134Adc.TcCodeBytes | lib/mcc134_adc.c:343-346 | The four data bytes of the reply are read back from the code, most significant first. |
| Mcc134Adc.OpenCodeBytes | lib/mcc134_adc.c:350 | A thermocouple code is open exactly when its three low reply bytes are 7F FF FF. |
| Mcc134Adc.CjcCode | lib/mcc134_adc.c:419-426 | The cold-junction code is bytes 2 to 4 of the reply, with bit 23 set exactly when byte 2 is 0x80 or more. |
| Mcc134Adc.MuxFrame | lib/mcc134_adc.c:313-317 | The WREG frame selects the inputs and sets the gain code. |
| Mcc134Adc.ReadTcCode | lib/mcc134_adc.c:296-371 | LOCK_TIMEOUT with nothing sent when the board lock fails; SUCCESS exactly when every transfer succeeds, with the code of the reply; an open code also parks the inputs on the reference. |
| Mcc134Adc.ReadCjcCode | lib/mcc134_adc.c:373-437 | LOCK_TIMEOUT with nothing sent when the board lock fails; a code with bit 23 set is UNDEFINED and returns no code; otherwise SUCCESS with the code. |
| Mcc134Adc.AdcPort.constructor | lib/mcc134_adc.c:117 | The SPI device starts closed. |
| Mcc134Adc.AdcPort.Init | lib/mcc134_adc.c:195-294 | BAD_PARAMETER for an invalid address; RESOURCE_UNAVAIL when the SPI device cannot be opened; INVALID_DEVICE or BUSY on a bad ID or ready bit; SUCCESS only after the reset, ID check, register writes and start were all sent. |
| Mcc134Factory.CStr | lib/mcc134.c:907 | The string a buffer holds is its prefix before the first NUL, and that prefix holds no NUL. |
| Mcc134Factory.CStrAppend | lib/mcc134.c:907 | Reading a C string over a NUL-free part followed by more text gives that part followed by the string read from the rest. |
| Mcc134Factory.StrNCopy | lib/mcc134.c:291-292 | strncpy writes exactly n characters: a shorter source reads back as itself, a longer one as its first n characters with no terminator. |
| Mcc134Factory.Defaults | lib/mcc134.c:188-202 | Serial "00000000", date "1970-01-01", every slope 1 and every offset 0. |
| Mcc134Factory.Zeroed | lib/mcc134.c:736-737 | A freshly allocated device holds empty serial and date strings. |
| Mcc134Factory.StoreFirst | lib/mcc134.c:302-312 | Entry i takes the i-th number of the array when there is one and keeps its old value otherwise; an array of four or more numbers replaces all entries with its first four. |
| Mcc134Factory.StoreFirstStep | lib/mcc134.c:305-310 | One more number updates exactly the next entry while fewer than four were stored, and nothing once four were. |
| Mcc134Factory.StoreArray | lib/mcc134.c:299-312 | The loop stores the first four numbers of the array, skipping other items, and counts the numbers stored, at most four. |
| Mcc134Factory.CalStep | lib/mcc134.c:283-347 | A calibration member sets the date flag when it is the date string, and the slopes or offsets flag only when its array filled all four entries; the serial flag does not change. |
| Mcc134Factory.ParseCalibration | lib/mcc134.c:283-347 | The loop over the calibration members computes the fold of CalStep over them. |
| Mcc134Factory.ParseFactoryData | lib/mcc134.c:242-361 | The parser computes ParseSpec of the document. |
| Mcc134Factory.CalFoldFlags | lib/mcc134.c:283-347 | After a calibration object each flag is set exactly when it was set before or some member sets it. |
| Mcc134Factory.RootFoldFlags | lib/mcc134.c:267-350 | After the root members each flag is set exactly when it was set before or some member of the document sets it. |
| Mcc134Factory.HasSplit | lib/mcc134.c:267-350 | The four existence facts of a member list are those of its prefix or of its last member. |
| Mcc134Factory.ParseAccepts | lib/mcc134.c:352-360 | Parsing succeeds exactly when the root is an object with a string serial and a calibration object holding a string date and slopes and offsets arrays of four numbers. |
| Mcc134Factory.ParseCanonical | lib/mcc134.c:242-361 | For the document the factory writes, the serial and date are stored truncated to their buffers and the first four numbers of each array are stored in order; parsing succeeds exactly when both arrays hold four numbers. |
| Mcc134Factory.SerialBuffer | lib/mcc134.c:275 | With room left for the terminator, the serial buffer holds the serial truncated to eight characters. |
| Mcc134Factory.DateBuffer | lib/mcc134.c:291-292 | The date buffer holds the date truncated to ten characters. |
| Mcc134Factory.OpenFactoryData | lib/mcc134.c:749-777 | Anything but the defaults means the EEPROM document parsed and was accepted, and an accepted document gives exactly the parsed data. |
| Mcc134Factory.TerminatedShort | lib/mcc134.c:907 | A buffer whose last byte is NUL holds a string shorter than the buffer. |
| Mcc134Factory.OpenFactoryTerminated | lib/mcc134.c:749-777 | With the terminator kept, the serial and date buffers of an open device always end in NUL. |
| Mcc134Factory.RootTerminated | lib/mcc134.c:267-350 | The root parse keeps the last byte of both buffers NUL. |
| Mcc134Factory.CalTerminated | lib/mcc134.c:283-347 | The calibration parse keeps the last byte of both buffers NUL. |
| Mcc134Factory.SerialCopyAsWritten | lib/mcc134.c:275 | strncpy with the full buffer size writes all nine bytes, so nothing keeps a terminator there. |
| Mcc134Factory.SerialReadAsWritten | lib/mcc134.c:898-909 | mcc134_serial's strcpy reads no more than the serial and date buffers together. |
| Mcc134Factory.LongSerialRunsIntoDate | lib/mcc134.c:275 | A serial of nine or more characters reads back as its first nine characters followed by the calibration date. |
| Mcc134Logger.ReadCode | examples/c/mcc134/data_logger/logger/logger.c:397-411 | A read is good exactly when the library succeeded and the value is none of the open, over-range and common-mode markers; a library failure keeps its own code and an open thermocouple is OPEN_TC_ERROR. |
| Mcc134Logger.Values | examples/c/mcc134/data_logger/logger/logger.c:423 | One value per channel listed, the value read from that channel, in the order listed. |
| Mcc134Logger.Errors | examples/c/mcc134/data_logger/logger/logger.c:413-420 | No failure is collected exactly when every listed channel reads good, and every collected code is a failure. |
| Mcc134Logger.ValuesSnoc | examples/c/mcc134/data_logger/logger/logger.c:391-426 | One more channel adds its value at the end and its failure, if any, at the end. |
| Mcc134Logger.GatherBit | examples/c/mcc134/data_logger/logger/logger.c:395 | While bits remain, the channel looked at is inside the mask and the low bit examined is that channel's bit. |
| Mcc134Logger.GatherSet | examples/c/mcc134/data_logger/logger/logger.c:395-424 | A turn at a selected channel stores its value at the next index of hat_read_buf and collects its failure. |
| Mcc134Logger.StoreNext | examples/c/mcc134/data_logger/logger/logger.c:423 | Storing at the next index extends the stored prefix by that value. |
| Mcc134Logger.GatherSkip | examples/c/mcc134/data_logger/logger/logger.c:425-426 | A turn at a channel outside the mask changes nothing but the position. |
| Mcc134Logger.GatherDone | examples/c/mcc134/data_logger/logger/logger.c:391 | When no bits remain, every selected channel of the mask has been seen. |
| Mcc134Logger.ReadChannels | examples/c/mcc134/data_logger/logger/logger.c:391-427 | The selected channels are read in ascending order; hat_read_buf holds their values in that order, good or not, and the failures are collected in that order. |
| Mcc134Logger.IntervalUnitsAgree | examples/c/mcc134/data_logger/logger/logger.c:532-548 | A day is 24 hours, an hour 60 minutes and a minute 60 seconds; an unknown unit is seconds. |
| Mcc134Logger.Logger.constructor | examples/c/mcc134/data_logger/logger/logger.c:354-381 | The sample count starts at 0, nothing is logged, and the display buffer holds g_num_samples scans. |
| Mcc134Logger.Logger.CopyHatDataToDisplayBuffer | examples/c/mcc134/data_logger/logger/logger.c:191-228 | A read of n scans raises the sample count by n, and the buffer shows the newest scans of what it showed followed by the new ones. |
| Mcc134Logger.Logger.Append | examples/c/mcc134/data_logger/logger/logger.c:440-441 | A good pass's row is logged once more and the display keeps its invariant over the whole history. |
| Mcc134Logger.Logger.ReadPass | examples/c/mcc134/data_logger/logger/logger.c:386-466 | A pass logs and shows its row exactly when no channel failed, otherwise nothing changes; the scan is asked to stop on a failed read or a failed log write. |
| Mcc134WebServer.TcWrites | examples/python/mcc134/web_server/web_server.py:251-256 | One type write per active channel, in order, each with the type its selector shows. |
| Mcc134WebServer.StartStopClick | examples/python/mcc134/web_server/web_server.py:216-263 | No click is idle with no board call; Configure gives configured exactly when a board is selected and a channel active, Start gives running, Stop gives idle; the board is opened exactly on a Configure click with a board selected, with the type writes only when a channel is active. |
| Mcc134WebServer.ClickFollowsLabel | examples/python/mcc134/web_server/web_server.py:378-395 | Clicking the button as labelled goes from configured to running, from running to idle, and from idle or error to configured or error. |
| Mcc134WebServer.TimerInterval | examples/python/mcc134/web_server/web_server.py:271-288 | While running the interval in seconds is the time per sample; otherwise it is one day. |
| Mcc134WebServer.ChartValue | examples/python/mcc134/web_server/web_server.py:445-455 | A reading reaches the chart as no value exactly when it is one of the open, over-range and common-mode markers, and otherwise as itself. |
| Mcc134WebServer.ReadTemperatures | examples/python/mcc134/web_server/web_server.py:437-455 | One chart value per active channel in order, and the flags are those the readings of this tick set after all three were cleared. |
| Mcc134WebServer.ReportedStep | examples/python/mcc134/web_server/web_server.py:443-455 | A marker is reported by a longer prefix of the readings exactly when it was reported before or is the next reading. |
| Mcc134WebServer.UpdateStripChartData | examples/python/mcc134/web_server/web_server.py:406-469 | While running with a board open, one scan is added: the sample count rises by one, each channel keeps its newest values followed by its new value, and the flags are this tick's; on configured an empty chart of the requested length; otherwise the chart is unchanged. |
| Mcc134WebServer.OneScan | examples/python/mcc134/web_server/web_server.py:472-515 | One reading per channel makes one scan: one sample number, and channel c's value is reading c. |
| Mcc134WebServer.FlatMembers | examples/python/mcc134/web_server/web_server.py:560-561 | A value is among those the range loop visits exactly when it belongs to some channel's data. |
| Mcc134WebServer.YAxisRange | examples/python/mcc134/web_server/web_server.py:560-569 | With no value shown the range is 0 to 100; otherwise it runs from five below the lowest value shown to five above the highest, and both extremes are values shown. |
| Mcc134WebServer.RangeOfChannel | examples/python/mcc134/web_server/web_server.py:561-565 | After one channel's values the low and high marks are the lowest and highest of everything seen. |
| Mcc134WebServer.LowestStep | examples/python/mcc134/web_server/web_server.py:562-563 | The low mark keeps the lowest value seen. |
| Mcc134WebServer.HighestStep | examples/python/mcc134/web_server/web_server.py:564-565 | The high mark keeps the highest value seen. |
| Mcc134WebServer.ErrorText | examples/python/mcc134/web_server/web_server.py:617-654 | Empty outside running and error; while running it is empty exactly when no error flag is set. |
| Mcc134WebServer.TickErrorsShown | examples/python/mcc134/web_server/web_server.py:636-646 | While running, the message after a tick is empty exactly when every reading of the tick is a chart value. |
| Mcc134WebServer.ErrorExplainsRefusal | examples/python/mcc134/web_server/web_server.py:647-652 | A Configure click is refused exactly when the message it leads to names a problem. |
| Mcc152.Top | lib/mcc152.c:30-34 | The largest accepted value, MAX_VOLTAGE for volts and MAX_CODE for codes, is positive. |
| Mcc152.Clamp | lib/mcc152.c:395-402 | The value is clamped into 0 to the top of the range: unchanged inside it, 0 below and the top above. |
| Mcc152.Codes | lib/mcc152.c:403 | The clamped value in DAC codes lies between 0 and MAX_CODE. |
| Mcc152.AOutCode | lib/mcc152.c:392-416 | The code sent never exceeds MAX_CODE. |
| Mcc152.AOutCodeNearest | lib/mcc152.c:403 | Adding one half and truncating gives the code nearest the clamped value. |
| Mcc152.AOutCodeMonotone | lib/mcc152.c:392-416 | A larger value never gives a smaller code. |
| Mcc152.AOutCodeRoundTrip | lib/mcc152.c:392-416 | Every code, given as its own voltage or as the code itself, converts back to that code. |
| Mcc152.AOutCodeEnds | lib/mcc152.c:395-414 | Values at or below 0 give code 0 and values at or above the top give MAX_CODE. |
| Mcc152.ClampIdempotent | lib/mcc152.c:457-463 | Clamping again changes nothing, so the clamped value written back to the caller's array gives the same code. |
| Mcc152.AOutWrite | lib/mcc152.c:381-421 | BAD_PARAMETER with nothing sent for a bad address or channel; otherwise one three-byte write-and-load frame to that channel carrying AOutCode of the value, with the SPI transfer's result. |
| Mcc152.AOutWriteAll | lib/mcc152.c:426-470 | BAD_PARAMETER with nothing sent and the array untouched for a bad address or a missing array; otherwise both values are clamped in place, each frame carries AOutCode of its original value, the second is sent only after the first succeeded, and success needs both. |
| Mcc152.ResetWrite | lib/mcc152.c:486-548 | A reset write after a failure changes nothing. |
| Mcc152.DioResetSpec | lib/mcc152.c:474-549 | A bad address is BAD_PARAMETER with nothing sent and the state unchanged. |
| Mcc152.ResetFromFailed | lib/mcc152.c:488-548 | Once a write has failed, the remaining writes are skipped. |
| Mcc152.ResetWriteSucceeds | lib/mcc152.c:486-548 | A reset write that succeeds sends that register's whole-port write. |
| Mcc152.DioResetAllSucceed | lib/mcc152.c:474-549 | When every write succeeds the reset returns SUCCESS after the eight register writes in order, leaving every channel an input with its output latch high. |
| Mcc152.ResetHead | lib/mcc152.c:486-516 | The first four writes of a reset that succeeds, the second of which makes every channel an input. |
| Mcc152.ResetTail | lib/mcc152.c:518-548 | The last four writes of a reset that succeeds, the last of which drives every output latch high. |
| Mcc152.DioResetStopsAtFirstWrite | lib/mcc152.c:486-492 | A failed first write ends the reset with that write's result, and neither the direction nor the output latch cache changes. |
| Mcc152.ResetRegister | lib/mcc152.c:486-487 | One reset write on the library's state is the step ResetWrite specifies. |
| Mcc152.DioReset | lib/mcc152.c:474-549 | The reset on the library's state is exactly DioResetSpec. |
| Mcc152.DioReadBit | lib/mcc152.c:555-565 | BAD_PARAMETER with nothing sent for a bad address or channel; otherwise the one-channel read of the data register. |
| Mcc152.DioReadPort | lib/mcc152.c:570-580 | BAD_PARAMETER with nothing sent for a bad address; otherwise the whole-port read of the data register. |
| Mcc152.DioOutputWriteBit | lib/mcc152.c:585-595 | BAD_PARAMETER with nothing sent for a bad address or channel; otherwise the one-channel write of the output latch through the cache. |
| Mcc152.DioOutputWritePort | lib/mcc152.c:600-610 | BAD_PARAMETER with nothing sent for a bad address; otherwise the whole-port write of the output latch. |
| Mcc152.ItemRegister | lib/mcc152.c:692-724 | An item has a register exactly when it is one of the seven configuration items. |
| Mcc152.ItemRegistersDistinct | lib/mcc152.c:692-724 | Different items configure different registers, none of them a data register, and only the direction is cached. |
| Mcc152.OutputTypeValue | lib/mcc152.c:710-717 | The output type written is 0 or 1, and 0 exactly when the value given was 0. |
| Mcc152.ConfigWriteBitPlan | lib/mcc152.c:677-727 | An unknown item is refused; otherwise the write goes to the item's register, through the cache only for the direction, to the whole port with 0 or 1 for the output type and to the given channel and value for the rest. |
| Mcc152.ConfigWritePortPlan | lib/mcc152.c:732-774 | An unknown item is refused; otherwise the whole register is written through the cache. |
| Mcc152.ConfigWriteBitChangesOneChannel | lib/mcc152.c:677-727 | A successful one-channel configuration write changes just that channel's bit of its register, and the output type sets the whole port. |
| Mcc152.ConfigWriteBit | lib/mcc152.c:677-727 | BAD_PARAMETER with nothing sent for a bad address or an unknown item; otherwise the register write ConfigWriteBitPlan chose. |
| Mcc152.ConfigWritePort | lib/mcc152.c:732-774 | BAD_PARAMETER with nothing sent for a bad address or an unknown item; otherwise the whole-port write ConfigWritePortPlan chose. |
| Mcc152.ConfigReadBit | lib/mcc152.c:779-822 | BAD_PARAMETER with nothing sent for a bad address or an unknown item; otherwise the item's register read at the channel, or the whole port for the output type. |
| Mcc152.ConfigPortValue | lib/mcc152.c:872-885 | The output type reads as 0x00 exactly when its register is 0 and as 0xFF otherwise; other items read as the register. |
| Mcc152.ConfigPortRoundTrip | lib/mcc152.c:732-885 | A port configuration written and read back gives the value written, or for the output type 0x00 or 0xFF by whether the value written was 0. |
| Mcc152.ConfigReadPort | lib/mcc152.c:827-888 | BAD_PARAMETER with nothing sent for a bad address or an unknown item; otherwise the whole register is read and a success reports ConfigPortValue of it. |
| Mcc152Dac.Transfer | lib/mcc152_dac.c:49-120 | Success exactly when device and address are valid, the device handle is open and the driver succeeds; a bad device or address is BAD_PARAMETER and a closed handle RESOURCE_UNAVAIL. |
| Mcc152Dac.FrameCode | lib/mcc152_dac.c:147-150 | The code a frame carries never exceeds MAX_CODE. |
| Mcc152Dac.EncodeFrame | lib/mcc152_dac.c:139-150 | The frame is three bytes, the command first, and carries exactly the code, with the low four bits of its last byte clear. |
| Mcc152Dac.FrameCodeInjective | lib/mcc152_dac.c:147-150 | Two frames with the same command and code are the same frame, so the code decides the frame. |
| Mcc152Dac.DacPort.constructor | lib/mcc152_dac.c:44 | Both SPI device handles start closed. |
| Mcc152Dac.DacPort.Write | lib/mcc152_dac.c:125-152 | BAD_PARAMETER with nothing sent for a bad device, address, channel or code; otherwise one write-and-load frame for the channel carrying the code, with the transfer's result. |
| Mcc152Dac.DacPort.WriteBoth | lib/mcc152_dac.c:157-186 | BAD_PARAMETER with nothing sent for bad arguments; otherwise channel A is written without loading, then channel B with the load of both, the second frame only after the first succeeded. |
| Mcc152Dac.DacPort.Init | lib/mcc152_dac.c:191-227 | BAD_PARAMETER for a bad address or device; otherwise the handle is opened if it was closed, RESOURCE_UNAVAIL when that fails, and the reference-mode frame is sent. |
| Mcc152Dio.Outcome | lib/mcc152_dio.c:103-148 | A transaction succeeds exactly when the slave was reached and the transfer went through; a failure is COMMS_FAILURE with the device open and RESOURCE_UNAVAIL otherwise. |
| Mcc152Dio.ChannelEightAcceptedAsWritten | lib/mcc152_dio.c:222 | Channel 8 passes the source's check though the corrected check refuses it; a write of it leaves the register as it was and a read of it gives 0. |
| Mcc152Dio.WrittenValue | lib/mcc152_dio.c:227-254 | For the whole port the value written is the value given; for one channel only that channel's bit changes, to the low bit of the value. |
| Mcc152Dio.ReadValue | lib/mcc152_dio.c:317-324 | The whole port reads as the register byte; one channel reads as 0 or 1. |
| Mcc152Dio.WriteThenReadChannel | lib/mcc152_dio.c:254 | Writing one channel and reading it back gives the bit written, and every other channel keeps its value. |
| Mcc152Dio.I2cWriteStep | lib/mcc152_dio.c:103-148 | The write is issued once the slave is reached, and then its register becomes the last one addressed whether or not it succeeds; success needs a valid address and a completed transfer; the caches never change. |
| Mcc152Dio.I2cReadStep | lib/mcc152_dio.c:153-209 | A value is reported exactly on success, and it is the byte read; only a success records the register as the last one addressed; a failure changes nothing. |
| Mcc152Dio.Refresh | lib/mcc152_dio.c:262-275 | A cached register's cache takes the value and nothing else changes; other registers change nothing. |
| Mcc152Dio.RegWriteStep | lib/mcc152_dio.c:214-278 | A bad address or channel is BAD_PARAMETER with nothing sent; otherwise the result is the write's, and a failed write leaves both caches as they were. |
| Mcc152Dio.WriteBase | lib/mcc152_dio.c:227-252 | A whole-port write and a cached write allowed to use the cache read nothing from the device. |
| Mcc152Dio.RegReadStep | lib/mcc152_dio.c:283-327 | A bad address or channel is BAD_PARAMETER with nothing sent; otherwise the result is the read's and a value is reported exactly on success. |
| Mcc152Dio.InitStep | lib/mcc152_dio.c:332-361 | A bad address is BAD_PARAMETER with nothing sent; otherwise the last register is forgotten, so the first read names OUTPUT_PORT; SUCCESS exactly when both reads succeed, and then the output port and direction caches hold the bytes read. |
| Mcc152Dio.WriteStaysAtAddress | lib/mcc152_dio.c:214-278 | A register write changes nothing at any other address. |
| Mcc152Dio.ReadStaysAtAddress | lib/mcc152_dio.c:283-327 | A register read changes nothing at any other address. |
| Mcc152Dio.I2cReadStaysAtAddress | lib/mcc152_dio.c:153-209 | An I2C read changes nothing at any other address. |
| Mcc152Dio.InitStaysAtAddress | lib/mcc152_dio.c:332-361 | With the corrected reset of the last register, initialisation changes nothing at any other address. |
| Mcc152Dio.OperationsStayAtAddress | lib/mcc152_dio.c:214-361 | No register write, register read or initialisation changes the state of another address. |
| Mcc152Dio.CachedWriteKeepsCache | lib/mcc152_dio.c:262-275 | After a successful write of a cached register its cache holds the value written. |
| Mcc152Dio.UncachedWriteReadsFirst | lib/mcc152_dio.c:246-254 | A single-channel write without the cache reads the register first and changes one bit of what it read. |
| Mcc152Dio.FailedWriteKeepsCache | lib/mcc152_dio.c:257-260 | A failed write changes neither cache. |
| Mcc152Dio.ReadAfterWriteSkipsRegister | lib/mcc152_dio.c:185-190 | Once a write of a register reached the bus, the next read of that register is a plain byte read. |
| Mcc152Dio.ReadRefreshesCache | lib/mcc152_dio.c:303-315 | A successful read of a cached register refreshes its cache with the byte read. |
| Mcc152Dio.ChannelEightRefused | lib/mcc152_dio.c:222 | With the corrected check a write or read of channel 8 is BAD_PARAMETER with nothing sent and nothing changed. |
| Mcc152Dio.InitFirstOpAsWritten | lib/mcc152_dio.c:345 | As written, initialisation starts with a plain byte read or a read that names OUTPUT_PORT, depending on what was last addressed at this board. |
| Mcc152Dio.InitSkipsRegisterAsWritten | lib/mcc152_dio.c:345 | Board 1, whose last transaction was on OUTPUT_PORT, starts its initialisation with a plain byte read, because entry 0 was reset instead of its own. |
| Mcc152Dio.DioBus.constructor | lib/mcc152_dio.c:36 | The static array starts zeroed at every address. |
| Mcc152Dio.DioBus.I2cWrite | lib/mcc152_dio.c:103-148 | The write on the bus state is exactly I2cWriteStep. |
| Mcc152Dio.DioBus.I2cRead | lib/mcc152_dio.c:153-209 | The read on the bus state is exactly I2cReadStep. |
| Mcc152Dio.DioBus.UpdateCache | lib/mcc152_dio.c:262-275 | The cache update on the bus state is exactly Refresh. |
| Mcc152Dio.DioBus.RegWrite | lib/mcc152_dio.c:214-278 | The register write on the bus state is exactly RegWriteStep. |
| Mcc152Dio.DioBus.ReadBase | lib/mcc152_dio.c:232-252 | The base a single-channel write starts from is exactly WriteBase. |
| Mcc152Dio.DioBus.RegRead | lib/mcc152_dio.c:283-327 | The register read on the bus state is exactly RegReadStep. |
| Mcc152Dio.DioBus.Init | lib/mcc152_dio.c:332-361 | Initialisation on the bus state is exactly InitStep. |
| Mcc172.SignExtend24 | lib/mcc172.c:779-792 | The three bytes give a value in the signed 24-bit range, negative exactly when the top bit is set, and equal to the unsigned reading modulo 2^24. |
| Mcc172.Encode24 | lib/mcc172.c:779-792 | A 24-bit code is three bytes. |
| Mcc172.SignExtendRoundTrip | lib/mcc172.c:779-792 | Decoding undoes the device's encoding for every code in the signed 24-bit range. |
| Mcc172.EncodeRoundTrip | lib/mcc172.c:779-792 | Encoding undoes decoding: every three bytes are the encoding of the value they decode to. |
| Mcc172.DecodeSamples | lib/mcc172.c:776-796 | One value per sample, sample k decoded from bytes 3k to 3k+2 of the reply. |
| Mcc172.ClockDivider | lib/mcc172.c:1490-1509 | After the rate is raised to at least 200 S/s, the divider the byte encodes is the whole number nearest 51200 over the rate. |
| Mcc172.ClockConfigReadAsWritten | lib/mcc172.c:1544-1546 | As written, the rate read back is 51200 divided by the divider in integer arithmetic. |
| Mcc172.ClockConfigRead | lib/mcc172.c:1519-1549 | The source is bits 0 and 1, the sync flag bit 7 and the divider one more than the second byte; the rate times the divider is exactly 51200, so it lies between 200 and 51200 S/s. |
| Mcc172.ClockReadTruncates | lib/mcc172.c:1546 | With divider 3 the rate read back as written is 17066, not 51200 / 3. |
| Mcc172.TruncationKeepsScanChoices | lib/mcc172.c:1676-1728 | The buffer tier and the read threshold the scan start derives from the rate are the same for the truncated and the exact rate. |
| Mcc172.TriggerByte | lib/mcc172.c:1572 | The trigger byte holds the source in its low two bits and the mode above them. |
| Mcc172.IepeWritten | lib/mcc172.c:1386-1393 | Only bit channel of the IEPE byte becomes the setting; every other bit keeps its value. |
| Mcc172.IepeConfig | lib/mcc172.c:1420 | The setting read back is bit channel of the byte. |
| Mcc172.IepeWriteRead | lib/mcc172.c:1386-1420 | Reading a channel back after writing its IEPE bit gives the value written, and the other channel is unchanged. |
| Mcc172.TestSignalsByte | lib/mcc172.c:2228-2240 | The test-signal byte uses bits 0 to 2 only. |
| Mcc172.TestSignalsRead | lib/mcc172.c:2204-2209 | Clock, sync and trigger read back as 0 or 1 each. |
| Mcc172.TestSignalsRoundTrip | lib/mcc172.c:2189-2241 | Each bit written, set for a non-zero argument, comes back in the same position. |
| Mcc172.ContinuousTier | lib/mcc172.c:1676-1691 | A continuous scan's buffer holds 1000 scans up to 1024 S/s, 10000 up to 10240 S/s and 100000 above. |
| Mcc172.ScanBufferSize | lib/mcc172.c:1668-1705 | The buffer holds the requested scans for a finite scan and at least the tier for a continuous one, times the channel count, wrapped to 32 bits. |
| Mcc172.ReadThreshold | lib/mcc172.c:1719-1729 | The read threshold is positive, a whole number of scans, no more than one transfer carries, and either one scan or at most a tenth of a second of samples. |
| Mcc172.StartPayload | lib/mcc172.c:1757-1765 | The start payload is six bytes: the scan count little-endian, the mask byte and a zero. |
| Mcc172.Board.constructor | lib/mcc172.c:1076-1077 | A new device starts with trigger source and mode 0. |
| Mcc172.Board.ClockConfigWrite | lib/mcc172.c:1471-1514 | BAD_PARAMETER for a bad address or a source above SLAVE and BUSY during a scan, both with nothing sent; otherwise the source and ClockDivider of the rate are sent. |
| Mcc172.Board.TriggerConfig | lib/mcc172.c:1554-1580 | BAD_PARAMETER for a bad source or mode and BUSY during a scan, both with nothing sent and nothing stored; otherwise the settings are stored and the trigger byte is sent. |
| Mcc172.Board.IepeConfigWrite | lib/mcc172.c:1362-1399 | BAD_PARAMETER with nothing sent for a bad address, channel or setting; BUSY with nothing sent during a scan; a failed read is returned with nothing sent; a write is sent only after a successful read with no scan running, and it is the byte with just that channel's bit changed; success needs both transfers. |
| Mcc172.Board.ScanStart | lib/mcc172.c:1586-1810 | The whole result ladder in the source's order: BAD_PARAMETER for a bad address, a mask of 0 or above 3, the external-clock option or zero samples of a finite scan; BUSY with a scan installed; RESOURCE_UNAVAIL for the thread info; the clock read's own failure; RESOURCE_UNAVAIL for a buffer of size 0 or failed allocations; the start reply's failure; RESOURCE_UNAVAIL for the thread; else SUCCESS; the start payload (count and mask byte) is sent exactly when every check before it passed; a failure leaves the scan as it was; a success installs a scan sized by ScanBufferSize and ReadThreshold of the rate read back; a thread failure after an accepted start sends CMD_AINSCANSTOP and gives RESOURCE_UNAVAIL |
| Mcc172.ChannelCountPositive | lib/mcc172.c:1626-1634 | A mask of 1, 2 or 3 selects one or two channels. |
| Mcc172.MaskByteFields | lib/mcc172.c:1743-1747 | The mask byte sent holds the channel bits and bit 2 exactly for an external trigger. |
| Mcc172WebServer.IepeSettings | examples/python/mcc172/web_server/web_server.py:254-258 | One IEPE setting per channel, on exactly when the channel's box is ticked. |
| Mcc172WebServer.StartStopClick | examples/python/mcc172/web_server/web_server.py:216-283 | No click is idle with no board call; Configure is an error exactly when the entries are invalid and configures exactly when they are valid and a board is selected, with the clock write and one IEPE write per channel; Start starts a continuous scan of the active channels buffering five seconds; Stop stops the scan. |
| Mcc172WebServer.ClickFollowsLabel | examples/python/mcc172/web_server/web_server.py:492-509 | Clicking the button as labelled goes from configured to running and from running to idle with the scan stopped; a scan starts only from configured and stops only from running. |
| Mcc172WebServer.TimerInterval | examples/python/mcc172/web_server/web_server.py:294-332 | The interval is one day unless running with the chart caught up on a positive count, and then int(channels times samples / 2) ms, but never under 500 ms. |
| Mcc172WebServer.TimerWithinDocumentedBounds | examples/python/mcc172/web_server/web_server.py:297-303 | With the entries a Configure click accepts, the running interval lies between 500 ms and one second. |
| Mcc172WebServer.StickyFlag | examples/python/mcc172/web_server/web_server.py:555-560 | An overrun flag is set after a read exactly when it was set before or the read reports it; other flags are untouched. |
| Mcc172WebServer.FlagRecordsAnyOverrun | examples/python/mcc172/web_server/web_server.py:555-560 | After a run of reads on a fresh chart, a flag is set exactly when some read of the run reported that overrun. |
| Mcc172WebServer.Readings | examples/python/mcc172/web_server/web_server.py:594-622 | Every value read reaches the chart as that value, in order. |
| Mcc172WebServer.UpdateStripChartData | examples/python/mcc172/web_server/web_server.py:520-574 | While running with a board open, the flags are stuck on and every scan read is added: the sample count rises by the scans read and each channel keeps its newest values; on configured an empty chart of the requested length; otherwise the chart is unchanged. |
| Mcc172WebServer.ErrorText | examples/python/mcc172/web_server/web_server.py:714-757 | Empty outside running and error; while running it is empty exactly when no overrun has been recorded. |
| Mcc172WebServer.ErrorExplainsRefusal | examples/python/mcc172/web_server/web_server.py:744-757 | A refused Configure click always leads to a message naming a problem, and the message is empty exactly when the click would configure the board. |
| PyExampleUtils.SelectHatDevice | examples/python/mcc134/daqhats_utils.py:8-57 | No board raises HatError "Error: No HAT devices found"; one board is selected without asking; with several, the entered address is selected exactly when a listed board has it, and otherwise ValueError is raised. |
| PyExampleUtils.PresentNames | examples/python/mcc134/daqhats_utils.py:79-81 | No more names than members. |
| PyExampleUtils.PresentNamesMembers | examples/python/mcc134/daqhats_utils.py:79-81 | A member's name is listed exactly when its value and the mask share a set bit. |
| PyExampleUtils.NameAbsent | examples/python/mcc134/daqhats_utils.py:79-81 | Only names of members are listed. |
| PyExampleUtils.PresentNamesStep | examples/python/mcc134/daqhats_utils.py:79-81 | One more member adds its name at the end exactly when it shares a bit with the mask. |
| PyExampleUtils.EnumMaskToString | examples/python/mcc134/daqhats_utils.py:60-82 | "DEFAULT" for a zero mask, then the names of the members sharing a bit with the mask in declaration order, joined by ", ". |
| PyExampleUtils.MaskOfBits | examples/python/mcc134/daqhats_utils.py:102-103 | Bit i of the mask is set exactly when channel i is in the list. |
| PyExampleUtils.MaskOfSetOnly | examples/python/mcc134/daqhats_utils.py:102-103 | Lists with the same channels give the same mask, whatever their order or repetition. |
| PyExampleUtils.Naturals | examples/python/mcc134/daqhats_utils.py:102-103 | The channels of a list with no negative entry, unchanged and in order. |
| PyExampleUtils.ChanListToMask | examples/python/mcc134/daqhats_utils.py:85-105 | A negative channel makes the shift raise; otherwise the mask is the OR of 1 shifted by each channel. |
| PyExampleUtils.ValidateChannels | examples/python/mcc134/daqhats_utils.py:108-128 | No error exactly when every channel lies in 0 to n-1; a non-empty set with no channels available fails evaluating min of an empty range; any other failure names the range 0 to n-1. |
| PyExampleUtils.ValidateChannelsClosed | examples/python/mcc134/daqhats_utils.py:126 | Every subset of an accepted set is accepted, and the union of accepted sets is accepted. |
| PyHats.IncorrectResponseCode | daqhats/mcc128.py:410-411 | The message starts "Incorrect response " and ends with a '.'. |
| PyHats.IncorrectResponseCodeInjective | daqhats/mcc128.py:410-411 | Different result codes give different "Incorrect response" messages. |
| PyHats.HatErrorStr | daqhats/hats.py:43-44 | The printed message starts "Addr " and ends with the description. |
| PyHats.SignedDecimalNoColon | daqhats/hats.py:44 | The address numeral never holds a ':'. |
| PyHats.SignedDecimalInjective | daqhats/hats.py:44 | Different addresses have different numerals. |
| PyHats.DecimalInjective | daqhats/hats.py:44 | Different naturals have different decimal numerals. |
| PyHats.FirstColon | daqhats/hats.py:44 | The index of the first ':' found lies within the string's bounds. |
| PyHats.FirstColonAt | daqhats/hats.py:44 | A ':' with none before it from i on is the first one found. |
| PyHats.HatErrorStrInjective | daqhats/hats.py:39-44 | The printed message gives back both the address and the description. |
| PyHats.OptionFlagsSingleBits | daqhats/hats.py:20-28 | DEFAULT is 0 and every other flag is a single bit of its own, so no two flags overlap. |
| PyHats.Converted | daqhats/hats.py:110-116 | An entry keeps its address and ID; a missing version reads as 0 and a missing name as "". |
| PyHats.HatList | daqhats/hats.py:63-118 | [] when the library cannot be loaded; otherwise one namedtuple per entry of the library's list, in its order. |
| PyHats.ConvertAll | daqhats/hats.py:110-116 | One converted namedtuple per entry, in order. |
| PyHats.ListUpToMatches | daqhats/hats.py:96-104 | Every entry listed for boards 1 and up carries an ID that passes the filter. |
| PyHats.HatListPromise | daqhats/hats.py:63-118 | The boards listed are in address order with no board twice, each with an ID that passes the filter; board 0 is listed exactly when its device-tree entry passes the filter, and any other board exactly when its EEPROM image does. |
| PyHats.HatListIdsMatch | daqhats/hats.py:96-104 | Every entry of the library's list carries an ID that passes the filter. |
| PyHats.MatchesConcat | daqhats/hats.py:110-116 | Two lists whose IDs all pass the filter joined still pass it. |
| PyHats.ConvertedKeeps | daqhats/hats.py:110-116 | Converting each entry keeps the address order, the IDs and the set of boards listed. |
| PyHats.HatInit | daqhats/hats.py:139-155 | ValueError exactly for an address outside 0 to 7, the bare Exception exactly when the library cannot be loaded, and otherwise an initialized object at that address. |
| PyHats.BoardInit | daqhats/mcc128.py:157-164 | Returns an initialized object exactly when Hat.__init__ does and the open call succeeds; INVALID_DEVICE raises "Invalid board type." and any other failure "Board not responding.". |
| PyHats.Guarded | daqhats/mcc128.py:213-214 | No exception exactly for an initialized object; otherwise HatError "Not initialized." at its address. |
| PyMcc128.LowChannels | daqhats/mcc128.py:663-667 | The count of channels the loop finds is at most the eight channels. |
| PyMcc128.CountChannels | daqhats/mcc128.py:663-667 | The loop over bits 0 to 7 counts exactly the set bits among the low eight bits of the mask, also for a negative mask. |
| PyMcc128.ScanStart | daqhats/mcc128.py:656-687 | HatError "Not initialized." first; ValueError with nothing sent for a zero mask or a channel count times the rate above 100000 S/s; otherwise the mask reaches the library as its low byte and the library's result decides the outcome. |
| PyMcc128.PopCountSubset | daqhats/mcc128.py:663-667 | A mask whose channels are a subset of another's counts no more channels. |
| PyMcc128.FewerChannelsAccepted | daqhats/mcc128.py:660-672 | Dropping channels from an accepted scan, leaving at least one, keeps it accepted at the same rate. |
| PyMcc128.SubsetWithinRate | daqhats/mcc128.py:669 | A subset of channels at a rate within the aggregate maximum stays within it. |
| PyMcc128.ScaleDown | daqhats/mcc128.py:669 | Fewer channels at the same rate stay within the aggregate maximum, for any rate. |
| PyMcc128.SetterAnswer | daqhats/mcc128.py:403-411 | Success returns; BAD_PARAMETER is ValueError and nothing else is; BUSY is the setter's own HatError; any other result is "Incorrect response" with its code. |
| PyMcc128.ModeWrite | daqhats/mcc128.py:382-412 | a_in_mode_write returns exactly on success, raises ValueError exactly for BAD_PARAMETER and the mode's busy message for BUSY. |
| PyMcc128.RangeWrite | daqhats/mcc128.py:435-465 | a_in_range_write returns exactly on success, raises ValueError exactly for BAD_PARAMETER and the range's busy message for BUSY. |
| PyMcc128.SetterAnswerInjective | daqhats/mcc128.py:403-411 | A setter's outcome determines the library result it came from. |
| PyMcc128.BusyMessagesStandApart | daqhats/mcc128.py:405-411 | Neither busy message can be mistaken for an "Incorrect response" message. |
| PyMcc128.TestClock | daqhats/mcc128.py:1103-1117 | Nothing is sent unless initialized and the mode is 0 to 3, with ValueError for any other mode; after the call BUSY raises its own message, any other failure "Incorrect response.", and success returns the byte read. |
| PyMcc172.Divisor | daqhats/mcc172.py:664-670 | The divisor lies in 1 to 256; inside that range it is within one half of 51200 over the rate, and outside it saturates at the nearer end. |
| PyMcc172.ActualRate | daqhats/mcc172.py:644-671 | ZeroDivisionError exactly for a rate of 0; otherwise one of the 256 rates 51200 over a divisor, between 200 and 51200 S/s. |
| PyMcc172.ActualRateIdempotent | daqhats/mcc172.py:664-671 | An actual rate asked for again gives itself. |
| PyMcc172.ActualRateNearest | daqhats/mcc172.py:664-671 | For a rate from 200 to 51200 S/s the divisor is the whole number nearest 51200 over the rate. |
| PyMcc172.ScanStart | daqhats/mcc172.py:762-787 | HatError "Not initialized." first; ValueError with nothing sent exactly for a mask of 0 or above 3; otherwise the mask reaches the library as its low byte and the library's result decides the outcome. |
| PyMcc172.ClockConfigRead | daqhats/mcc172.py:561-580 | Returns exactly when initialized and the library succeeds, with the source and rate read and synchronized true exactly when the synced byte is non-zero; any other failure is "Incorrect response.". |
| PyMcc172.VersionRoundTrip | daqhats/mcc172.py:207-208 | The version string is one or two hex digits, a single '.', and two hex digits, and reading it back gives the version. |
| PyMcc172.FirmwareVersion | daqhats/mcc172.py:201-212 | Returns exactly when initialized and the library succeeds, with the formatted version; otherwise "Incorrect response.". |
| PyMcc152.Answer | daqhats/mcc152.py:890-893 | Returns exactly on success with the value read; BAD_PARAMETER is ValueError where the method checks an item, and every other failure is "Incorrect response.". |
| PyMcc152.NoScaleIsBit0 | daqhats/mcc152.py:226 | The Python test for NOSCALEDATA agrees with the library's. |
| PyMcc152.ClampValue | daqhats/mcc152.py:226-235 | The clamp gives a code in 0 to 4095 with NOSCALEDATA and a voltage in 0 to 5 times 4095/4096 otherwise, and is the library's own clamp. |
| PyMcc152.AOutWrite | daqhats/mcc152.py:219-241 | HatError "Not initialized." first; ValueError with nothing sent for a channel outside 0 to 1; otherwise the channel and the clamped value are sent and any failure is "Incorrect response.". |
| PyMcc152.AOutWriteSameCode | daqhats/mcc152.py:226-238 | Clamping in Python does not change the DAC code the library computes. |
| PyMcc152.AOutWriteAll | daqhats/mcc152.py:270-293 | ValueError with nothing sent for fewer than two values; otherwise the values are sent unchanged, BAD_PARAMETER is ValueError and other failures "Incorrect response.". |
| PyMcc152.AOutWriteAllSameCodes | daqhats/mcc152.py:275-285 | The clamping loop, which assigns only a local variable, would not change either channel's code anyway. |
| PyMcc152.DioReset | daqhats/mcc152.py:311-319 | Returns exactly when initialized and the library succeeds; otherwise "Not initialized." or "Incorrect response.". |
| PyMcc152.OutputWriteBit | daqhats/mcc152.py:468-484 | Nothing is sent unless initialized, the channel is 0 to 7 and the value 0 or 1, with ValueError otherwise; the pair sent is the one given and any failure is "Incorrect response.". |
| PyMcc152.OutputWritePort | daqhats/mcc152.py:514-526 | Nothing is sent unless initialized and the value is 0 to 255, with ValueError otherwise; the byte sent is the one given. |
| PyMcc152.ConfigWriteBit | daqhats/mcc152.py:877-895 | The checks of the output bit write; the item goes as its low byte and BAD_PARAMETER is ValueError. |
| PyMcc152.ConfigWritePort | daqhats/mcc152.py:984-998 | ValueError with nothing sent unless the value is 0 to 255; the item goes as its low byte and BAD_PARAMETER is ValueError. |
| PyMcc152.LastValue | daqhats/mcc152.py:564-575 | None exactly when no pair names the channel; otherwise the value of a pair naming it, 0 or 1 for valid pairs. |
| PyMcc152.DictMerge | daqhats/mcc152.py:564-579 | None, so ValueError, exactly when there are no pairs or a pair has a bad channel or value. |
| PyMcc152.MergedBits | daqhats/mcc152.py:564-575 | Each bit of the merged register is the last value given for its channel, or the old bit when no pair names it. |
| PyMcc152.SingleItemMerge | daqhats/mcc152.py:564-575 | A dictionary of one pair writes the register a single-bit write of it would. |
| PyMcc152.MaskStep | daqhats/mcc152.py:571-575 | Clearing with the inverted mask and setting with the mask each set the one bit to the value. |
| PyMcc152.ApplyItem | daqhats/mcc152.py:569-575 | One pass of the loop sets the channel's bit to the value and marks a channel as specified. |
| PyMcc152.MergeItems | daqhats/mcc152.py:564-579 | The loop over the pairs computes the merged register, or stops with None exactly when the merge has none. |
| PyMcc152.MergeStep | daqhats/mcc152.py:569-575 | Merging one more valid pair is setting its bit in the register merged so far. |
| PyMcc152.OutputWriteDict | daqhats/mcc152.py:553-587 | A failed read of the output register is "Incorrect response." with nothing written; a bad or empty dictionary is ValueError with nothing written; otherwise the merged register is written as the port write does. |
| PyMcc152.ConfigWriteDict | daqhats/mcc152.py:1094-1130 | The same over the item's configuration register, with the port write's BAD_PARAMETER mapping. |
| PyMcc152.ReadTuple | daqhats/mcc152.py:688-690 | Eight entries, one per channel. |
| PyMcc152.ReadTupleInjective | daqhats/mcc152.py:688-690 | Two registers with the same tuple are the same byte. |
| PyMcc152.DictWriteReadBack | daqhats/mcc152.py:564-690 | Reading the tuple back after a dictionary write shows the last value given for each listed channel and the old value for the rest. |
| PyMcc152.TupleRead | daqhats/mcc152.py:677-692 | "Not initialized." first; otherwise the read's outcome with the register as eight entries of 0 or 1. |
| PyMcc152.ReadBit | daqhats/mcc152.py:350-363 | Nothing is sent unless initialized and the channel is 0 to 7, with ValueError otherwise; the channel goes to the library and its result decides the outcome. |
| PyScan.MaskedBit | daqhats/mcc128.py:761-764 | Masking the status word with 1 shifted by k is non-zero exactly when bit k is set. |
| PyScan.Flags | daqhats/mcc128.py:41-44 | hardware_overrun, buffer_overrun, triggered and running are bits 0, 1, 2 and 3 of the status word. |
| PyScan.FlagsOfStatusWord | daqhats/mcc128.py:761-764 | Decoding the status word the library builds gives back the four flags it was built from. |
| PyScan.Status | daqhats/mcc128.py:745-765 | "Not initialized." first; RESOURCE_UNAVAIL is "Scan not active.", any other failure "Incorrect response" with its code; success returns the decoded flags and the samples available. |
| PyScan.StatusErrorsIdentify | daqhats/mcc128.py:752-757 | Different failed results of the status read raise different errors. |
| PyScan.ReadPlan | daqhats/mcc128.py:827-859 | A negative count reads what is available, zero reads nothing into no buffer, a positive count reads that many; the buffer holds the samples to read times the channel count. |
| PyScan.ScanRead | daqhats/mcc128.py:814-892 | "Not initialized." first; a failed status call for a negative count reports its code; BAD_PARAMETER is ValueError, RESOURCE_UNAVAIL "Scan not active." and other failures their code; TIMEOUT sets the timeout field; a returned read holds exactly samples read times channels values from the buffer, in order, and indexing into the missing buffer of a zero count raises TypeError. |
| PyScan.ReadFitsBuffer | daqhats/mcc128.py:863-878 | When the library reports no more samples than were asked for, a successful or timed-out read returns all of them. |
| PyScan.ReadAllLength | daqhats/mcc128.py:827-878 | Reading all that is available returns available times channels values. |
| PyScan.StartAnswer | daqhats/mcc128.py:678-686 | Success returns; ValueError exactly for BAD_PARAMETER; BUSY is "A scan is already active.", RESOURCE_UNAVAIL "Memory could not be allocated." and any other result its code. |
| PyScan.StartAnswerInjective | daqhats/mcc128.py:678-686 | The outcome of a scan start determines the library's result. |
| PyScan.StartMessageHead | daqhats/mcc128.py:680-686 | The first letter of the message tells BUSY, RESOURCE_UNAVAIL and the other failures apart. |
| ScanEngine.MaxSamplesRead | lib/mcc128.c:155-156 | A data command returns at least one sample. |
| ScanEngine.Normalize | lib/mcc128.c:175 | COUNT_NORMALIZE rounds down to the largest whole number of scans not above the count. |
| ScanEngine.DecodeStatus | lib/mcc128.c:923-934 | running, hardware overrun and triggered are bits 0, 1 and 2 of the first byte; the two counts are 16-bit on the MCC 118 and 24-bit on the MCC 128. |
| ScanEngine.ReadCount | lib/mcc128.c:954-980 | One step reads nothing unless the device stopped, reached the threshold or has more than it can send now; it never reads more than available, than can be sent now, than one data command carries, or than fits before the end of the buffer. |
| ScanEngine.NextChannel | lib/mcc128.c:850-854 | The channel index stays below the channel count. |
| ScanEngine.ChannelAfter | lib/mcc128.c:850-854 | After any number of samples the channel index stays below the channel count. |
| ScanEngine.ChannelAfterAdd | lib/mcc128.c:850-854 | Advancing a then b samples is advancing a + b samples. |
| ScanEngine.ChannelAfterCounts | lib/mcc128.c:850-854 | Before the wrap the channel index counts up one per sample. |
| ScanEngine.ChannelAfterPeriod | lib/mcc128.c:850-854 | After a whole scan the channel index is back where it started. |
| ScanEngine.ChannelAfterMod | lib/mcc128.c:850-854 | The channel index after k samples is the start plus k modulo the channel count. |
| ScanEngine.ModSucc | lib/mcc128.c:850-854 | Adding one wraps the remainder to 0 exactly at the channel count. |
| ScanEngine.Block | lib/mcc128.c:829-855 | A stored block keeps each raw code; on the MCC 128 every sample takes the range of the block's first channel, and on the MCC 118 and MCC 172 each sample takes its own channel's coefficients. |
| ScanEngine.Wrap | lib/mcc128.c:988-991 | A ring index just past the end wraps to the start. |
| ScanEngine.Window | lib/mcc128.c:2371-2402 | The unread samples of the ring, taken from the read index on and wrapping at the end. |
| ScanEngine.Overwrite | lib/mcc128.c:983-985 | Writing a block into the buffer keeps its length. |
| ScanEngine.OverwriteStep | lib/mcc128.c:831-855 | Storing one more sample extends the block written so far by that sample. |
| ScanEngine.WindowAppend | lib/mcc128.c:983-994 | A block stored right behind the unread samples extends them by that block. |
| ScanEngine.AppendKeepsWindow | lib/mcc128.c:983-1000 | When it fits, the unread samples after a store are the unread part of the stream followed by the block. |
| ScanEngine.RingAppend | lib/mcc128.c:983-1001 | Storing a block at the write index keeps the ring consistent, or causes an overrun that stops the thread. |
| ScanEngine.WindowDrop | lib/mcc128.c:2378-2407 | Taking samples off the front leaves the window that starts that much later. |
| ScanEngine.Wrapped | lib/mcc128.c:2379-2402 | The samples the copies of one pass take have the count asked for. |
| ScanEngine.WrappedPieces | lib/mcc128.c:2379-2402 | The copied samples are one contiguous piece, or the tail of the buffer followed by its head. |
| ScanEngine.WindowTake | lib/mcc128.c:2379-2402 | The first samples of the window are those the copies take. |
| ScanEngine.OverwriteConcat | lib/mcc128.c:2383-2391 | Two copies back to back are one copy of both pieces. |
| ScanEngine.OverwriteSlices | lib/mcc128.c:2383-2398 | A copy changes exactly the stretch it writes. |
| ScanEngine.StatusWord | lib/mcc128.c:2233-2251 | The status word is below 16 with hardware overrun, buffer overrun, triggered and running as bits 0 to 3. |
| ScanEngine.FourBits | lib/mcc128.c:2233-2251 | Each of the four flags can be read back from its own bit. |
| ScanEngine.ChunkWindow | lib/mcc128.c:2379-2407 | After a chunk is taken, the read index and the remaining window match what is left. |
| ScanEngine.RingTake | lib/mcc128.c:2379-2407 | Taking a chunk off the ring keeps it consistent with the read index past the chunk, and without overrun the chunk is the copied samples. |
| ScanEngine.ScanSession.Contents | lib/mcc128.c:200-203 | The unread samples, as many as the buffer depth, are the unconsumed part of the stream. |
| ScanEngine.ScanSession.constructor | lib/mcc128.c:1639-1851 | A scan starts with an empty buffer of its size, all indexes 0, no overrun, not triggered, and the thread and scan running. |
| ScanEngine.ScanSession.ProducerStep | lib/mcc128.c:921-1042 | A failed status transfer changes nothing; a hardware overrun stops the thread and the scan; before the trigger nothing is read; otherwise the block read is appended to the stream behind the write index, the depth and count grow by it, the buffer overrun ends the thread, and the thread also ends when the device stopped with nothing left. |
| ScanEngine.ScanSession.ProducerRead | lib/mcc128.c:952-1032 | The triggered part of one thread iteration reads exactly ReadCount samples when the data command succeeds. |
| ScanEngine.ScanSession.Accept | lib/mcc128.c:986-1001 | After a stored block the write index wraps at the end, depth and count grow by the block, the stream gets the block, and an overrun is recorded exactly when the depth exceeds the buffer. |
| ScanEngine.ScanSession.Grow | lib/mcc128.c:986-1001 | The bookkeeping after a store: the write index wraps, the depth grows, and an overrun stops the thread and the scan. |
| ScanEngine.ScanSession.StoreBlock | lib/mcc128.c:829-855 | Storing a block writes it at the write index and advances the channel index by its length. |
| ScanEngine.ScanSession.CopyChunk | lib/mcc128.c:2371-2407 | When at least one scan is buffered it takes the largest whole number of scans up to the request, oldest first, and leaves the caller's buffer outside that stretch unchanged. |
| ScanEngine.ScanSession.Take | lib/mcc128.c:2379-2407 | The read index moves past the samples taken, wrapping, and the depth drops by them. |
| ScanEngine.ScanSession.ReadPass | lib/mcc128.c:2358-2407 | One pass copies whole scans behind the samples read so far, and the samples read are the next stretch of the stream. |
| ScanEngine.ScanSession.MaybeProduce | lib/mcc128.c:921-1042 | A producer step between passes never takes anything from the reader. |
| ScanEngine.ScanSession.ReadStep | lib/mcc128.c:2358-2431 | One pass with its timeout and overrun checks keeps the reading invariant. |
| ScanEngine.ScanSession.Read | lib/mcc128.c:2296-2472 | The read returns SUCCESS or TIMEOUT; TIMEOUT only for a positive timeout, with samples still owed, and after a sub-microsecond timeout or a pass that timed out; and TIMEOUT whenever a positive timeout ends the read short with no overrun and data still to come; it never returns more than the request, the samples returned are the next stretch of the stream in order, status bits 0 and 1 are the hardware and buffer overruns when the passes did not run out, bits 2 and 3 are the trigger and running flags, and a short successful read happens only on an overrun, a finished scan with nothing left, or a zero timeout |
| ScanEngine.ScanDevice.constructor | lib/mcc128.c:1146 | A device starts with no scan and trigger mode 0. |
| ScanEngine.ScanDevice.SetTriggerMode | lib/mcc128.c:1555-1571 | BAD_PARAMETER for a bad address or a mode above 3, BUSY while a scan exists, otherwise the mode is set; a failure keeps the old mode. |
| ScanEngine.ScanDevice.Status | lib/mcc128.c:2190-2253 | BAD_PARAMETER for a bad address; RESOURCE_UNAVAIL with zeros without a scan; otherwise the four flags as bits and the whole scans buffered. |
| ScanEngine.ScanDevice.BufferSize | lib/mcc128.c:2156-2171 | BAD_PARAMETER for a bad address, RESOURCE_UNAVAIL without a scan, otherwise the buffer size. |
| ScanEngine.ScanDevice.ChannelCount | lib/mcc128.c:2176-2185 | The scan's channel count, or 0 for a bad address or no scan. |
| ScanEngine.ScanDevice.Install | lib/mcc128.c:1639-1851 | A started scan becomes the device's scan. |
| ScanEngine.ScanDevice.Cleanup | lib/mcc128.c:2498-2526 | SUCCESS for any valid address, which is then left without a scan; BAD_PARAMETER otherwise, changing nothing. |
| ScanEngine.ScanDevice.ReadScan | lib/mcc128.c:2261-2472 | BAD_PARAMETER for a bad address, no status out-parameter, or a positive request without a buffer; RESOURCE_UNAVAIL without a scan; otherwise, in terms of the installed scan, every promise of the session's read: the result, the TIMEOUT condition both ways, the count bound, the samples in stream order, the four status bits and the short-read clause |
| ScanEngine.Mcc118RequestAsWritten | lib/mcc118.c:1918-1935 | On the MCC 118 read-all requests the raw buffer depth, not a whole number of scans. |
| ScanEngine.Mcc118ReadAllStalls | lib/mcc118.c:1918-1960 | With three channels and 512 samples buffered, read-all asks for 512, copies 510, and no later pass can copy the remaining 2. |
| ScanEngine.ReadAllOnePass | lib/mcc128.c:2334-2376 | With the request in whole scans, read-all is met by the first pass that copies anything. |
| ScanEngine.Requested | lib/mcc128.c:2334-2352 | The request never exceeds the caller's buffer; when it would, it is cut to whole scans that fit; read-all is whole scans of what is buffered. |
| ScanEngine.RawRequest | lib/mcc128.c:2334-2344 | Read-all is the buffer depth rounded down to whole scans; otherwise the count per channel times the channel count when that fits in 32 bits. |
| ScanEngine.ChunkAppend | lib/mcc128.c:2379-2402 | The samples read so far followed by the next chunk are the next stretch of the stream. |
| ScanEngine.ScansAdd | lib/mcc128.c:2435 | Adding a chunk of whole scans keeps a whole number of scans. |
| ScanEngine.CopyWrapped | lib/mcc128.c:2379-2402 | The copies of one pass write the wrapped samples into the caller's buffer at the samples read so far. |
| ScanEngine.CopyRange | lib/mcc128.c:2384-2386 | memcpy writes the source stretch into the destination at the given position and nothing else. |
| SpiFrame.TxFrame | lib/mcc118.c:315-334 | A command frame is the four header bytes followed by the payload. |
| SpiFrame.ParseTxFrame | lib/mcc118.c:315-334 | A frame that parses is the frame of the command and payload it gives back. |
| SpiFrame.TxFrameRoundTrip | lib/mcc118.c:315-334 | Parsing a command frame gives back its command and payload. |
| SpiFrame.CreateFrame | lib/mcc118.c:315-334 | A payload over 256 bytes gives length 0 and writes nothing; otherwise the frame is written at the start of the buffer, its length returned, and the rest of the buffer left alone. |
| SpiFrame.FirstStart | lib/mcc118.c:231-310 | The index found holds the start byte and none before it does; no index means no start byte at all. |
| SpiFrame.HeaderCount | lib/mcc118.c:231-310 | The count announced by a reply header is 16-bit. |
| SpiFrame.FirstStartPrefix | lib/mcc118.c:231-310 | The first start byte of a prefix extended by one byte is the earlier one, or that byte if it is the first. |
| SpiFrame.FirstStartExtend | lib/mcc118.c:231-310 | Once a start byte is the first, it stays the first in longer prefixes. |
| SpiFrame.FirstStartWhole | lib/mcc118.c:231-310 | A start byte that is first in a prefix is first in the whole buffer. |
| SpiFrame.ParseBuffer | lib/mcc118.c:231-310 | The byte-at-a-time state machine finds the frame the reference definition describes, with its start, length and missing bytes. |
| SpiFrame.SomeStartPrefix | lib/mcc118.c:231-310 | The first start byte of a prefix is also the first of the shorter prefix ending at it. |
| SpiFrame.FirstStartUnique | lib/mcc118.c:231-310 | A start byte with none before it is the one found. |
| SpiFrame.RxFrame | lib/mcc118.c:231-310 | A reply frame is the five header bytes followed by its data. |
| SpiFrame.ParseFindsReply | lib/mcc118.c:231-310 | A reply after junk bytes that are not the start byte is found at the end of the junk with its full length, whatever follows it. |
| SpiFrame.ParseNeedsStart | lib/mcc118.c:231-310 | A buffer without a start byte never yields a frame. |
| SpiFrame.ParseFoundFrame | lib/mcc118.c:231-310 | A found frame lies inside the buffer, begins with the start byte, and has the length its header announces. |
| SpiFrame.DecodeReply | lib/mcc118.c:548-583 | Only success carries data, exactly the expected number of bytes. |
| SpiFrame.DecodeReplyTable | lib/mcc118.c:548-583 | Success exactly when the command is echoed with status SUCCESS, returning the data; a wrong echo is BAD_PARAMETER; the firmware statuses BAD_PARAMETER, TIMEOUT and BUSY map to their results and every other status to UNDEFINED. |
| StripChart.ButtonLabel | examples/python/mcc172/web_server/web_server.py:492-509 | "Start" exactly when configured, "Stop" exactly while running, and "Configure" when idle or in error. |
| StripChart.Trunc | examples/python/mcc172/web_server/web_server.py:594 | int() truncates toward zero: the whole part below a non-negative value and above a negative one. |
| StripChart.Count | examples/python/mcc172/web_server/web_server.py:609-610 | The sample numbers shown count up by one from the base. |
| StripChart.ScanIndex | examples/python/mcc172/web_server/web_server.py:612 | Entry c of scan s lies inside the values of the scans read. |
| StripChart.ColumnAt | examples/python/mcc172/web_server/web_server.py:611-613 | The k-th value a channel gets is that channel's value of the k-th scan. |
| StripChart.CountSplit | examples/python/mcc172/web_server/web_server.py:609-610 | The sample numbers of two consecutive stretches are those of the whole stretch. |
| StripChart.ColumnSplit | examples/python/mcc172/web_server/web_server.py:611-613 | A channel's values of two consecutive stretches of scans are those of the whole stretch. |
| StripChart.DequeAppend | examples/python/mcc172/web_server/web_server.py:600-613 | Appending to a deque of maxlen m keeps the newest m of everything appended. |
| StripChart.NewestHidden | examples/python/mcc172/web_server/web_server.py:605-607 | Skipping the scans that would be pushed out of view leaves the same newest m. |
| StripChart.ChartData.Init | examples/python/mcc172/web_server/web_server.py:70-90 | Samples 0 to n-1, one list of n empty values per channel, a sample count of 0, and no flags; a negative count gives empty lists. |
| StripChart.ChartData.AddSamplesToData | examples/python/mcc172/web_server/web_server.py:577-622 | Fails, changing nothing, exactly for no channels, a negative display length or fewer channel lists than channels; otherwise returns the old count plus the whole scans read, and the samples list and each selected channel are the newest entries of the old list with the new ones appended, other channels untouched. |
| StripChart.AppendScans | examples/python/mcc172/web_server/web_server.py:597-620 | The loops leave the samples and each selected channel as the newest m of the old list followed by the new entries. |
| StripChart.OpenDeques | examples/python/mcc172/web_server/web_server.py:602-604 | Opening a deque of maxlen m keeps the newest m of each selected channel and leaves the others. |
| StripChart.AppendScan | examples/python/mcc172/web_server/web_server.py:611-613 | The inner loop appends each channel's value of one scan to that channel's deque. |
| StripChart.AddStep | examples/python/mcc172/web_server/web_server.py:609-613 | One more scan through the loops keeps the shown lists equal to the newest m of everything so far. |
| StripChart.AddDone | examples/python/mcc172/web_server/web_server.py:605-613 | Starting the loop at start_sample instead of 0 shows the same newest entries. |
| Text.DigitChar | examples/c/daqhats_utils.h:226 | One digit character for each digit value. |
| Text.Decimal | examples/c/daqhats_utils.h:226 | A numeral is a non-empty string of digits, one digit long exactly below 10. |
| Text.DecimalRoundTrip | examples/c/daqhats_utils.h:226 | Reading back a numeral gives the number it was written from. |
| Text.SignedDecimal | examples/c/daqhats_utils.h:226 | The numeral starts with '-' exactly for a negative number. |
| Text.TerminatedSnoc | examples/c/daqhats_utils.h:222-227 | Appending one more part with its separator extends the terminated list by it. |
| Text.TerminatedJoin | examples/c/daqhats_utils.h:222-227 | A non-empty list of parts each followed by the separator is the joined list plus one trailing separator. |
| Text.LastIndex | examples/c/daqhats_utils.h:231 | strrchr finds the last index holding the character, and none when it does not occur. |
| Text.CutAtLast | examples/c/daqhats_utils.h:231 | Cutting at the last character is defined exactly when the character occurs, and keeps the prefix before its last occurrence. |
| Text.CutTerminated | examples/c/daqhats_utils.h:222-231 | Cutting a ", "-terminated list at its last comma leaves the joined list. |
| Util.ErrorMessage | lib/util.c:848-869 | Codes 0 down to -7 get their fixed message and every other code the unknown one. |
| Util.ErrorMessagesIdentify | lib/util.c:848-869 | Different result codes other than UNDEFINED get different messages, none of them the unknown message, which UNDEFINED and every unknown code share. |
| Util.MessagesDistinct | lib/util.c:121-131 | The eight fixed messages differ from each other and from the unknown message. |
| Util.DiffTimeUs | lib/util.c:242-255 | The absolute difference in microseconds between the two times, 0 when either is missing. |
| Util.DiffTimeSymmetric | lib/util.c:242-255 | The difference does not depend on the order of the times, and is 0 between a time and itself. |
| Util.DiffTimeTriangle | lib/util.c:242-255 | The difference obeys the triangle inequality. |
| Util.ObtainBoardLock | lib/util.c:350-416 | Success exactly for a valid address whose lock is obtained; BAD_PARAMETER for an address past the last board and TIMEOUT otherwise. |
| Util.WaitForInterrupt | lib/util.c:892-906 | UNDEFINED exactly for the GPIO wait's -1, TIMEOUT exactly for its 0, success otherwise. |
| Util.ProductName | lib/util.c:604 | The product name is a prefix of the product string with room for the terminator, and equals it when it fits. |
| Util.Board0Entry | lib/util.c:498-516 | Board 0's entry has address 0. |
| Util.ImageEntry | lib/util.c:601-604 | An EEPROM entry has the board's address and the vendor atom's product ID. |
| Util.ListUpTo | lib/util.c:528-612 | No more entries than boards examined. |
| Util.Board0Part | lib/util.c:473-524 | At most one entry, at address 0. |
| Util.HatListSpec | lib/util.c:452-615 | At most eight entries. |
| Util.ListedConcat | lib/util.c:528-612 | A board listed in a joined list is listed in one of its parts. |
| Util.ListUpToSpec | lib/util.c:528-612 | A board from 1 to n-1 is listed exactly when its image passes the EEPROM rule, and entries are in address order. |
| Util.ListAppendSpec | lib/util.c:528-612 | One more pass of the loop keeps the entries ordered and lists the board exactly when its image passes the rule. |
| Util.HatList | lib/util.c:452-615 | The library's list is the reference definition of board 0 followed by boards 1 to 7. |
| Util.Board0List | lib/util.c:473-524 | Board 0 is listed from the device tree when it names the vendor and a product ID passing the filter. |
| Util.ListEntry | lib/util.c:530-611 | One pass gives the board's entry exactly when its header, first atom, vendor string and product ID pass. |
| Util.HatListMembers | lib/util.c:452-615 | Board 0 is listed exactly when the device tree names the vendor and a matching product ID; board 1 to 7 exactly when its image passes the EEPROM rule. |
| Util.HatListOrdered | lib/util.c:452-615 | The list is in address order, so no board appears twice. |
| Util.OrderedAfterBoard0 | lib/util.c:452-615 | Board 0's entry followed by ordered entries of boards 1 and up stays ordered. |
| Util.InfoStricterThanList | lib/util.c:545-547 | _hat_info's header check implies hat_list's, and an image with a single atom passes hat_list and fails _hat_info. |
| Util.WalkStep | lib/util.c:740-813 | Each pass reads one more atom or stops with an error; the atom counter is the uint8_t of the source and wraps at 256. |
| Util.WalkFrom | lib/util.c:736-814 | The walk ends with both atoms found, the wrapping uint8_t counter of vendor and other atoms at numatoms or above, or an error; with a header count above 255 the counter never gets there, so only both atoms found or an error end it. |
| Util.Wrap16 | lib/util.c:629 | uint16_t arithmetic leaves values that fit unchanged. |
| Util.HatInfoSpec | lib/util.c:620-843 | BAD_PARAMETER for an address past the last board; unless board 0's device tree names the vendor, success exactly when the image has a valid header with more than one atom. |
| Util.HatInfoStandardLayout | lib/util.c:727-839 | A vendor atom naming the company followed by the custom atom gives that entry and the custom data's length without its CRC, plus one. |
| Util.WalkEntrySound | lib/util.c:740-797 | An entry is reported only for a vendor atom naming the company among the atoms read. |
| Util.HatInfoRead | lib/util.c:620-843 | The library's _hat_info gives the reference result, whose walk counts atoms in uint8_t as the source does. |
| Util.WalkAtoms | lib/util.c:736-814 | The atom loop, with its wrapping uint8_t counter, computes the reference walk. |

## Left out

- SPI, I2C and GPIO transport (ioctl, reply polling with sleeps, flock-based board locks, interrupt GPIO): each transfer is an outcome and reply bytes given as parameters.
- Threads, mutexes and wall-clock time: the scan thread and the MCC 134 update thread become explicit steps or snapshots. Timeouts are booleans given to each pass.
- Floating-point scaling and calibration: LSB sizes, slopes and offsets, IEPE sensitivity, the NIST thermocouple polynomials, the thermistor equation, CJC interpolation and FFT. Where a value is needed it is an uninterpreted real; doubles are modelled as exact reals.
- cJSON parsing and EEPROM file reading: the factory data is walked as an already-parsed `Json` tree, and the EEPROM records arrive already read.
- GUI and web presentation: the GTK windows, plots, dialogs and Dash layouts. Only the state the callbacks compute is modelled, and the JSON round trip through the page is the identity.
- The interactive example programs, the IFTTT scripts, `daqhats/mcc134.py`, `lib/gpio.c` and the packaging: they are call sequences, network clients or thin wrappers with no logic of their own. The `include/*.h` headers supply only constants.
- The text of every `printf`/`fprintf` progress or error line, and of Python's ValueError messages. Only which error is raised is modelled.
- LogFile.LogFile.WriteLogFile: each CSV value that `sprintf("%2.6lf,")` formats is kept as the value itself, and each line as the scan's values; the decimal text and its six-digit rounding are not modelled. LogFile.ScansFlatten is stated over those values.
- tools/mcc118_firmware_update.c `update_bootloader` (lines 523-674), chosen by a command-line flag: it writes the bootloader image with the same record helpers after its own confirmation prompt. It is not modelled separately.
- The `#else` scan-start branch of lib/mcc128.c (lines 1909-2149): it is compiled out.
- examples/c/mcc134/data_logger/logger/errors.h is not part of this model. The two codes `check_log_file_error` reports take the values the MCC 172 logger's errors.h gives them.
- The uint32 wrap-around of the loggers' `g_sample_count` after 2^32 samples: the count in `DataLogger.Acquisition` is unbounded.
- Util.DiffTimeUs: unbounded integers. The double arithmetic, and the int32 difference that overflows past about 35 minutes, are not modelled.
- Util.HatInfoSpec: board 0's id is 0 when product_id cannot be read, where the source leaves the field unset.
- PyMcc152.Answer: the `*_read_port` methods are this mapping applied to the byte read. They are not modelled one by one.
- PyMcc152.OutputWriteDict: a Python dict is modelled as a sequence of (key, value) pairs. The sequence may repeat a channel, and then the later pair's bit wins. A dict holds each key once, so the model covers every dict.
- PyMcc152.AOutWrite: the options of `a_out_write` that are not part of the tuple sent to the library are not modelled.
- PyMcc172.ScanStart: the loop that counts the mask's channels is left out. Its count is never used.
- PyScan.ScanRead: `int()` of an infinite or NaN timeout is not modelled.
- Object identity of the Python board objects: a `PyHats.Hat` is a value holding the address and the initialized flag.
- Mcc128.CastU32: C leaves a double converted to an unsigned type undefined when the value does not fit, as for the quotient of a zero or negative rate. The model gives these conversions in Mcc128.DividedPeriod, Mcc118.ReadThreshold and Mcc128.ReadThreshold the saturating result of the boards' ARM processors: a negative value converts to 0 and a value too large to the maximum.
- ScanEngine.ScanDevice.ReadScan: a read-all (a negative samples_per_channel) with a NULL buffer and a non-zero buffer size is excluded by its requires. The source's memcpy then writes through NULL, which C leaves undefined.
- Mcc118.ScanStart: a buffer size that wraps to 0 in uint32 is answered RESOURCE_UNAVAIL, as if calloc had failed. calloc of 0 bytes may instead succeed, as glibc's does, and the source then starts a scan whose buffer holds no sample; that scan is not modelled.
- Mcc128.Board.QueueStart: the same buffer size of 0 is answered RESOURCE_UNAVAIL, as for Mcc118.ScanStart.
- Mcc172.Board.ScanStart: the same buffer size of 0 is answered RESOURCE_UNAVAIL, as for Mcc118.ScanStart.
- Mcc118Firmware.RecordOf: it refuses a type 02 or 04 record with fewer than two data bytes, and a record whose length byte disagrees with its data, both of which the source accepts (see Findings).
- Mcc118Firmware.CheckLine: it fails on the records RecordOf refuses, where verify_hex_file reads the word from the checksum and a stale byte (see Findings).
- Mcc118Firmware.VerifyHexFile: it fails a file holding a record RecordOf refuses, where verify_hex_file may pass it (see Findings).
- Mcc118Firmware.ReadRecord: it reads no record from a line RecordOf refuses (see Findings).
- Mcc118Firmware.VirtualFlash.ProcessHexLine: it returns 0 for a line RecordOf refuses, where process_hex_line updates a base or the flash from bytes the line does not hold (see Findings).
- Mcc118Firmware.LoadLine: it skips a line RecordOf refuses, where the source updates a base from it (see Findings).
- Mcc118Firmware.UpdateFirmware: the messages printed between phases are not modelled. The key pressed at the prompt is a field of the Session parameter.

## Findings

Each row names a member that models the code as written and exhibits the problem on a concrete input. It also names the corrected member that the rest of the model uses.

| source | as written | input that shows it | evidently intended | confidence | as-written member | corrected member |
|---|---|---|---|---|---|---|
| lib/mcc118.c:1477 | the actual rate is CLOCK_TIMEBASE / (period + 1) with a uint32 period; a rate at or below MIN_SCAN_RATE gives period 0xFFFFFFFF and the divisor wraps to 0 | any rate up to MIN_SCAN_RATE, 0 and negative rates included, with one channel | the rate of the slowest pacer, a finite value | not executed | Mcc118.SlowRateReadsInfinite | Mcc118.ActualRate |
| lib/mcc118.c:1918-1935 | read-all (samples_per_channel -1) requests the raw buffer_depth instead of whole scans | three channels, 512 samples buffered: 512 requested, 510 copied, and no later pass can copy the remaining 2 | a request rounded down to whole scans, as the MCC 128 and MCC 172 do | not executed | ScanEngine.Mcc118ReadAllStalls | ScanEngine.ReadAllOnePass |
| lib/mcc118.c:1188-1194 | a CMD_ID reply with a foreign ID frees the entry whatever its reference count | a second open of an address already open whose CMD_ID reply is foreign | release only the reference this open took | not executed | DeviceTable.SharedOpenFreesEntry | DeviceTable.OpenEntry |
| lib/mcc134.c:1067-1072 | the channel check is channel > 4, so channel 4 passes | a_in_read or t_in_read of channel 4 reads tc_types[4] outside the array | channel >= 4 refused | not executed | Mcc134.ChannelFourPassesAsWritten | Mcc134.ChannelChecksDiffer |
| lib/mcc134.c:275 | strncpy copies up to SERIAL_SIZE bytes into a SERIAL_SIZE buffer, leaving no terminator | a serial of nine or more characters reads back as nine characters followed by the calibration date | copy SERIAL_SIZE - 1 characters and keep the terminator | not executed | Mcc134Factory.LongSerialRunsIntoDate | Mcc134Factory.OpenFactoryTerminated |
| lib/mcc152_dio.c:222 | the channel check is channel > 8, so channel 8 passes | a register write or read of channel 8 reports SUCCESS | channel >= 8 refused with BAD_PARAMETER | not executed | Mcc152Dio.ChannelEightAcceptedAsWritten | Mcc152Dio.ChannelEightRefused |
| lib/mcc152_dio.c:345 | initialisation resets last_register of entry 0 only | board 1 last addressed on OUTPUT_PORT starts its init with a plain byte read of the wrong register | reset the entry of the address being initialised | not executed | Mcc152Dio.InitSkipsRegisterAsWritten | Mcc152Dio.InitStaysAtAddress |
| tools/mcc118_firmware_update.c:266-279 | the end of a data record is computed in uint32 arithmetic and compared with TOTAL_LENGTH | linear base 0xFFFF0000 and a one-byte record at offset 0xFFFF: the end wraps to 0 and the record passes | the end computed without wrap-around, so the record is refused | not executed | Mcc118Firmware.WrappedEndPassesAsWritten | Mcc118Firmware.WrappedEndRefused |
| tools/mcc118_firmware_update.c:156-190 | a record is accepted on its length and checksum alone, so its length byte is not checked against its data | the line :01000000FF: its only data byte copied into flash is the checksum | refuse a record whose length byte disagrees with the bytes present | not executed | Mcc118Firmware.ShortRecordCopiesChecksum | Mcc118Firmware.RecordOf |
| tools/mcc118_firmware_update.c:192-201 | an extended address record is accepted without checking that it carries a two-byte word | the line :00000002FE: the segment base is set from the checksum 0xFE and a byte left over from the previous line | refuse a type 02 or 04 record with fewer than two data bytes | not executed | Mcc118Firmware.ShortSegmentRecordReadsChecksum | Mcc118Firmware.RecordOf |
| tools/mcc128_firmware_update.c:61-72 | get_next_frame tests the signature in bytes 2 to 5 without checking they lie inside the file | a one-byte file: the memory after it decides the test and a six-byte frame is produced | no frame is read that does not lie inside the file | not executed | Mcc128Firmware.HeaderReadPastEndAsWritten | Mcc128Firmware.NextFrameAt |
| tools/mcc128_firmware_update.c:115 | last_frame is never initialised before the status loop | a FRAME_CRC_PASS status before any frame was sent finishes the update when last_frame happens to be true | last_frame false until the last frame is sent | not executed | Mcc128Firmware.EarlyPassFinishesAsWritten | Mcc128Firmware.StatusFinishSentAll |
| tools/mcc128_firmware_update.c:356-357 | the address is scanned with %u into an int and only checked against 7 | the argument 4294967295 is held as -1 and accepted | addresses 0 to 7 only | not executed | Mcc128Firmware.NegativeAddressAcceptedAsWritten | Mcc128Firmware.Address |
| tools/mcc128_firmware_update.c:390 | retry_count is never incremented in the device check loop | a board that never answers: the loop never ends | give up after the fixed number of attempts | not executed | Mcc128Firmware.RetryNeverGivesUpAsWritten | Mcc128Firmware.CheckDevice |
| examples/c/mcc118/data_logger/logger/logger.c:463-484 | the channel mask passed to mcc118_a_in_scan_actual_rate is left 0, never loaded from g_chan_mask | any start: the library answers BAD_PARAMETER and the rate box is never corrected | count the selected channels and show the actual rate | not executed | DataLogger.StartRateNeverCorrectedAsWritten | DataLogger.StartRateIsActual |
| examples/c/mcc118/data_logger/logger/logger.c:234 | the window shift uses memcpy between overlapping ranges | a full window and a read of fewer than half a window of scans | memmove, a shift that is defined when the ranges overlap | not executed | DataLogger.FullBufferShiftOverlapsAsWritten | DataLogger.MoveDown |
| lib/mcc172.c:1546 | the rate read back is 51200 / divider in integer arithmetic | divider 3 reads back 17066, not 51200 / 3 | the exact rate, 51200.0 / divider | not executed | Mcc172.ClockReadTruncates | Mcc172.ClockConfigRead |
