# Pulsefex monitor: SIM800L AT-command engine and control pipeline

This project models two parts of the Pulsefex biometric monitor's firmware in Dafny and proves properties of the model.

**The SIM800L cellular driver (`Src/sim800l.c`).**
- The driver talks to the modem with the text-mode SMS commands of 3GPP TS 27.005: +CMGF (section 3.2.3), +CNMI (3.4.1), +CMGR (3.4.3), +CMGS (3.5.1) and +CMGD (3.5.4).
- It also sends +CSQ (3GPP TS 27.007 section 8.5) and the vendor command AT+GSMBUSY.
- Replies end in the ITU-T V.250 verbose result codes `\r\nOK\r\n` or `\r\nERROR\r\n`.
- Each command:
  - except `sim_send_sms` and `sim_signal_strength`, checks its parameter bounds;
  - writes into a global command template: ASCII digits for the index and mode commands, the phone number for `sim_send_sms`; `sim_signal_strength` sends the constant `AT+CSQ` and writes no template;
  - clears the shared response buffer and resets `RxCounter`;
  - writes the template and a line feed to the modem's UART;
  - busy-polls the response classifier until it reports OK or ERROR.
- Extractors read the SMS state, the sender's number, the message body and the signal strength out of a settled buffer.

**The control pipeline of `Src/main.c`.**
- The TIM16 callback raises a tick flag.
- `vReadSensorData` consumes the flag and advances the display state machine.
- `vShowOledScreenProcess` is a four-status display state machine with a `uint8_t` render counter.
- `setActiveSensor` switches the MAX30102 sensor on or off from one bit of a mask.
- `checkBPMAndControlLED` drives the blue LED and two alarm flags from the heart rate.
- One iteration of the main loop runs the scheduler, the tick-gated read, the alarm check and a display step.

**Modules.**
- `Bytes` (bytes.dfy): `uint8_t` as `UInt8`, and C `char` as `Byte`, a character below 256.
  - `strncpy` is `StrNCpy` on values and `StrNCpyInto` on an array.
  - The `n + 0x30` digit store is `DigitChar`.
- `Sim800Defs` (sim800l_defs.dfy): result codes, buffer size, templates and the template-substitution functions.
- `Sim800Scan` (sim800l_scan.dfy): `sim_check_res`, `sim_get_sms_state` and `find_c`. Each is a specification function plus the source's loop as a method proved equal to it.
- `Sim800Extract` (sim800l_extract.dfy): the signal-strength parse, `sim_get_sms_contact` and `sim_get_sms_data`.
- `Sim800Driver` (sim800l_driver.dfy): class `Sim800`.
  - Fields: the six mutable templates as arrays, `RxCounter`, and the bytes sent to the modem.
  - Methods: `push_cmd`, the exchange, and every command.
- `Monitor` (monitor.dfy): class `ControlLoop` over the globals of main.c.
  - Driver calls (sensor, display, LED, scheduler) are recorded as `Action`s in a trace.
  - Sensor readings are inputs.

**Values from headers that are not part of this model** are constants with no definition. Each constant's type states the assumption the model makes:
- `SIM_RES_OK`, `SIM_RES_ERROR` and `SIM_NO_RES` differ from each other. `IDX_OOR` differs from OK and ERROR. `SMS_UNREAD`, `SMS_READ` and `NO_SMS` differ from each other. `NO_SMS` differs from OK and ERROR.
- `MIN_BUFFER` is in 12..255. The scans index the buffer with `uint8_t` counters, so 255 is the most they can reach. The contact scan starts at `LEN_CMD_READ_SMS`, which is 12. The example lemmas require their reply to fit the buffer.
- `LEN_PHONE_NUM` is in 1..21. `LEN_CMD_SEND_SMS + LEN_PHONE_NUM` is 22, the length of the send template.
- Every other `LEN_CMD_*` is the length of its template literal.
- `MAX_SMS`, `LEN_PUBLISH_MES` and the two OLED timeouts are arbitrary `uint8_t` values.
- The four OLED statuses differ from each other.
- `MAX30102_BIT_POSITION` is below 8.

**The receive interrupt is outside the model.** Src/main.c declares `RxCounter` but the code that fills the buffer is not shown. The model delivers the modem's `reply` one byte per poll round, at `buf[RxCounter++]`. A command requires the complete reply to fit the buffer and to classify as OK or ERROR (`ModemAnswers`); otherwise the source's poll never returns. `PollStop` names the first received prefix that settles, and every command's exchange ends exactly there.

**Behaviour of the code worth knowing:**
- The signal-strength parse reads the digits two bytes after the colon. That skips the space of `+CSQ: 23,0` (`SignalExampleTwoDigits`). Without the space, `:23,0` parses to 3 and `:5,0` to 216 (`SignalWithoutSpace`).
- With the MAX30102 status and the counter starting at 0, the first T calls render nothing and call T + 1 renders, where T is the timeout. After the render the counter is 1 (`FirstRender`).
- The message-body extractor starts three bytes after the last quote. That skips the closing quote, CR and LF. It ends at the last CR, which belongs to the final `OK\r\n`, so the body includes `\r\n\r\nOK` (`DataIncludesResultCode`).
- `find_c` returns `|end2 - end1| + 1` when the character is absent, not the 255 or 0 its comment announces (`FindCharNotFound`). Over the full range 0..255 with the character absent it never returns (`FindFullRangeNeverEnds`).

## Model

| member | source | states |
|---|---|---|
| Bytes.DigitChar | Src/sim800l.c:81-83 | storing `n + 0x30` yields the ASCII digit of `n` for every `n < 10` |
| Bytes.StrNCpy | Src/sim800l.c:115 | `strncpy` writes exactly `n` bytes: those of the source before its first NUL, then NUL padding |
| Bytes.StrNCpyVerbatim | Src/sim800l.c:115 | a string without NUL that is exactly `n` long is copied unaltered |
| Bytes.StrNCpyInto | Src/sim800l.c:248 | `strncpy(dst + at, src, n)` changes exactly `dst[at..at+n)`, to the `StrNCpy` bytes, and nothing else |
| Sim800Defs.ReadSmsCommand | Src/sim800l.c:81-83 | the read template differs from its previous contents only at LEN-4, LEN-3 and LEN-1; the comma is kept |
| Sim800Defs.DeleSmsCommand | Src/sim800l.c:100-101 | the delete template differs only at its last two bytes |
| Sim800Defs.TextModeCommand | Src/sim800l.c:137 | the text-mode template differs only at its last byte |
| Sim800Defs.RejInCallCommand | Src/sim800l.c:300 | the call-rejection template differs only at its last byte |
| Sim800Defs.CnmiCommand | Src/sim800l.c:156 | the CNMI template differs only at LEN-9, the `mode` digit |
| Sim800Defs.SendSmsCommand | Src/sim800l.c:115 | the send template differs only in the LEN_PHONE_NUM bytes from LEN_CMD_SEND_SMS-1, which hold the `strncpy` of the number |
| Sim800Defs.ReadSmsCommandSpelled | Src/sim800l.c:81-83 | from any earlier template state, the command is `AT+CMGR=` + two index digits + `,` + mode digit; for an index below 100 the digits decode back to the index, and a mode below 10 decodes back to the mode |
| Sim800Defs.DeleSmsCommandSpelled | Src/sim800l.c:100-101 | the command is `AT+CMGD=` + two index digits, which decode back to an index below 100 |
| Sim800Defs.TextModeCommandSpelled | Src/sim800l.c:137 | the command is `AT+CMGF=` + the mode digit, whatever earlier calls left |
| Sim800Defs.RejInCallCommandSpelled | Src/sim800l.c:300 | the command is `AT+GSMBUSY=` + the mode digit, whatever earlier calls left |
| Sim800Defs.CnmiCommandSpelled | Src/sim800l.c:151-157 | the command is always `AT+CNMI=<mode>,0,0,0,0`: `mt`, `bm`, `ds` and `bfr` never reach the modem |
| Sim800Defs.SendSmsCommandSpelled | Src/sim800l.c:115 | the command is the template prefix + the copied number + the closing quote; with 12-byte numbers the prefix is `AT+CMGS="` |
| Sim800Defs.SendSmsWholeNumber | Src/sim800l.c:115 | a number of exactly LEN_PHONE_NUM bytes without NUL is embedded unaltered |
| Sim800Defs.ReadSmsExample | Src/sim800l.c:81-84 | reading SMS 5 in mode 0 sends `AT+CMGR=05,0` |
| Sim800Defs.SendSmsExample | Src/sim800l.c:115-118 | with 12-byte numbers, sending to `+15551234567` sends `AT+CMGS="+15551234567"`, the template's full 22 bytes |
| Sim800Scan.ClassifyFindsLastTerminator | Src/sim800l.c:214-231 | the classifier answers by the last index >= 1 holding a CR that starts a result code: OK if the OK pattern starts there (tried first), ERROR otherwise |
| Sim800Scan.ClassifyNoResponse | Src/sim800l.c:217-230 | SIM_NO_RES exactly when no index >= 1 starts a result code |
| Sim800Scan.ClassifyIgnoresIndexZero | Src/sim800l.c:217 | index 0 is never examined: changing it never changes the answer |
| Sim800Scan.ClassifyEndsWithOk | Src/sim800l.c:214-231 | a buffer ending in `\r\nOK\r\n` classifies as OK |
| Sim800Scan.ClassifyEndsWithError | Src/sim800l.c:214-231 | a buffer ending in `\r\nERROR\r\n` classifies as ERROR |
| Sim800Scan.CheckResponse | Src/sim800l.c:214-231 | the backward loop returns the classification above and writes nothing |
| Sim800Scan.SmsStateFindsFirstToken | Src/sim800l.c:22-37 | the first quote followed by `REC UNREAD` or `REC READ` decides: UNREAD if `REC UNREAD` follows it, READ otherwise |
| Sim800Scan.SmsStateNone | Src/sim800l.c:28-36 | NO_SMS exactly when no quote is followed by a status token |
| Sim800Scan.GetSmsState | Src/sim800l.c:22-37 | the forward loop returns that state; its final `i == MIN_BUFFER` test always holds, so the missing return after it is never reached |
| Sim800Scan.FindCharFound | Src/sim800l.c:43-65 | when the character occurs in the scanned range, `find_c` returns the absolute index of its first occurrence in scan direction, forward or backward |
| Sim800Scan.FindCharNotFound | Src/sim800l.c:43-65 | when it does not occur, `find_c` returns `|end2-end1| + 1` |
| Sim800Scan.FindCharAmbiguous | Src/sim800l.c:41-65 | a forward search of [3, 10] returns 8 both when the character is absent and when it first occurs at index 8 |
| Sim800Scan.FindFullRangeNeverEnds | Src/sim800l.c:43-65 | over 0..255 in either direction with the character absent, `i <= end2` holds for every `uint8_t` counter value and no probe matches, so the loop does not terminate; the intended search answers None |
| Sim800Scan.FindC | Src/sim800l.c:43-65 | the loop, with its `uint8_t` counter, returns the `find_c` result above whenever it terminates |
| Sim800Scan.FindFirstFrom | Src/sim800l.c:41-65 | the intended search: None exactly when the character is absent from the range; otherwise the index of a match, equal to `find_c`'s |
| Sim800Scan.FindFirstSeparates | Src/sim800l.c:41-65 | on the ambiguous input the intended search answers None and Some(8) |
| Sim800Extract.ParseSignal | Src/sim800l.c:190-202 | the colon loop returns the value the signal specification gives for the buffer |
| Sim800Extract.SignalAfterFirstColon | Src/sim800l.c:190-200 | the value is read two and three bytes after the FIRST colon: one digit before a comma, otherwise tens and units |
| Sim800Extract.SignalWithoutColon | Src/sim800l.c:188-208 | without a colon the function reaches its end without returning a value |
| Sim800Extract.SignalWithoutSpace | Src/sim800l.c:188-200 | when the first colon is not followed by a space, `:23,0` parses to 3 and `:5,0` to 216, the `uint8_t` value of 10 * (',' - '0') |
| Sim800Extract.SignalExampleOneDigit | Src/sim800l.c:188-200 | the reply `+CSQ: 5,0` followed by OK classifies as OK and parses to 5 |
| Sim800Extract.SignalExampleTwoDigits | Src/sim800l.c:188-200 | the reply `+CSQ: 23,0` followed by OK classifies as OK and parses to 23 |
| Sim800Extract.ReplyEndingInOk | Src/sim800l.c:214-231 | a received reply whose last bytes before the cleared tail are `\r\nOK\r\n` classifies as OK |
| Sim800Extract.CommaFrom | Src/sim800l.c:244-246 | the first comma at or after the start, or the buffer's end |
| Sim800Extract.GetSmsContact | Src/sim800l.c:238-255 | on a nonzero classification, copies LEN_PHONE_NUM bytes from two past the first comma at or after LEN_CMD_READ_SMS and returns OK, never NO_SMS since its `i == 0` test cannot succeed; on 0, returns ERROR and writes nothing |
| Sim800Extract.ContactExample | Src/sim800l.c:238-255 | from a `+CMGR: "REC UNREAD","+84901234567",...` reply it extracts `+84901234567` |
| Sim800Extract.LastIndexFrom | Src/sim800l.c:268-275 | the backward scan stops at the last occurrence at an index >= 1, or at 0 |
| Sim800Extract.ScanBack | Src/sim800l.c:268-275 | the `uint8_t` loop returns that index |
| Sim800Extract.GetSmsData | Src/sim800l.c:264-284 | ERROR without writing on classification 0; NO_SMS without writing when the quote scan yields 0; otherwise OK (not a length), with the bytes from last quote + 3 up to the last CR copied |
| Sim800Extract.DataIncludesResultCode | Src/sim800l.c:268-277 | for a complete +CMGR reply the copied body is `hi\r\n\r\nOK`: it carries the final result code |
| Sim800Driver.PollStop | Src/sim800l.c:86 | the number of received bytes at which the poll first sees OK or ERROR; no earlier prefix settles |
| Sim800Driver.Sim800.constructor | Src/sim800l.c:7-16 | the templates start as their literals, in six separate arrays |
| Sim800Driver.Sim800.PutChar | Src/sim800l.c:85 | one byte is appended to what the modem has received |
| Sim800Driver.Sim800.PushCmd | Src/sim800l.c:167-174 | exactly the first `len` bytes of the command are sent, in order |
| Sim800Driver.Sim800.BeginExchange | Src/sim800l.c:79-80 | the buffer is filled with the clearing byte and `RxCounter` is 0 |
| Sim800Driver.Sim800.AwaitReply | Src/sim800l.c:86-87 | the poll returns at the first settled prefix, with the buffer holding that prefix, and returns its classification, OK or ERROR |
| Sim800Driver.Sim800.ReadSms | Src/sim800l.c:74-88 | index > MAX_SMS or mode > 1 gives IDX_OOR with nothing changed or sent; otherwise the template is rewritten, the template and LF are sent, and the settled classification is returned |
| Sim800Driver.Sim800.DeleteSms | Src/sim800l.c:95-106 | index >= MAX_SMS (stricter than reading) gives IDX_OOR with nothing changed; otherwise the same exchange with AT+CMGD |
| Sim800Driver.Sim800.SendSms | Src/sim800l.c:113-125 | the number is copied into the template; then the template, LF, exactly LEN_PUBLISH_MES text bytes and Ctrl-Z are sent; the result is the settled classification and never IDX_OOR |
| Sim800Driver.Sim800.SetTextMode | Src/sim800l.c:132-144 | mode > 1 gives IDX_OOR with nothing changed; otherwise the exchange runs over a buffer cleared to `'0'`, not NUL |
| Sim800Driver.Sim800.SetCnmiMode | Src/sim800l.c:151-161 | any of the five bounds violated gives IDX_OOR with nothing changed; otherwise only the `mode` digit is written and sent |
| Sim800Driver.Sim800.RejectIncomingCalls | Src/sim800l.c:294-305 | mode > 2 gives IDX_OOR with nothing changed; otherwise the AT+GSMBUSY exchange |
| Sim800Driver.Sim800.SignalStrength | Src/sim800l.c:179-209 | sends AT+CSQ and LF; after the exchange settles, returns the parsed value if the classification is nonzero and SIM_RES_ERROR if it is 0 |
| Monitor.DisplayStatuses | Src/main.c:205-225 | DEF and SHUT_DOWN leave the counter at 1, and only SHUT_DOWN clears the screen; MAX30102 and BLE render iff the counter has reached their timeout, ending at 1 after a render and at entry+1 mod 256 otherwise; an unknown status only counts |
| Monitor.QuietCalls | Src/main.c:211-224 | below the MAX30102 timeout each call only adds one to the counter |
| Monitor.RenderAfterTimeout | Src/main.c:211-224 | from `n` short of the timeout, the next `n + 1` calls render exactly once, on the last, leaving the counter at 1 |
| Monitor.FirstRender | Src/main.c:211-224 | from counter 0 the first T calls render nothing and call T + 1 renders once, where T is the MAX30102 timeout; from then on a render comes every T calls |
| Monitor.AlarmLevel | Src/main.c:906-918 | the alarm value is 0 for a reading in [60, 130] and 1 for any other reading |
| Monitor.AlarmBounds | Src/main.c:907 | out of band iff below 60 or above 130; 60 and 130 do not trigger, 59 and 131 do |
| Monitor.BitSetIsBinaryDigit | Src/main.c:228 | `(data >> p) & 1` is binary digit `p` of `data`; the start-up mask `1 << p` has it set |
| Monitor.ControlLoop.constructor | Src/main.c:112-116 | the globals' initial values: flag 0, status 7, counter 0, sensor active, alarm flags 0 |
| Monitor.ControlLoop.TimerElapsed | Src/main.c:128-132 | TIM16 sets the tick flag; any other timer changes nothing |
| Monitor.ControlLoop.ShowOledScreenProcess | Src/main.c:205-225 | the counter and the display calls follow the status machine above |
| Monitor.ControlLoop.ReadSensorData | Src/main.c:163-171 | no effect unless the flag is 1; then the flag becomes 0, the sensor is read iff active, and the display advances with the current status either way |
| Monitor.ControlLoop.SetActiveSensor | Src/main.c:227-237 | the active flag equals bit MAX30102_BIT_POSITION of `data`; on: start-up, init, OLED init in that order; off: shutdown only |
| Monitor.ControlLoop.CheckBpmAndControlLed | Src/main.c:906-918 | both flags equal the alarm value of the current reading and the LED is set iff it is out of band, whatever came before |
| Monitor.ControlLoop.LoopIteration | Src/main.c:296-305 | one pass: scheduler, tick-gated read, alarm only while active (flags unchanged otherwise), then a MAX30102 display step; the tick is consumed |

## Left out

- The receive interrupt is not part of this model. The reply is an input, delivered one byte per poll round. Bytes that arrive between a classifier call and the return are not modelled. Neither is an interrupt that writes past the buffer.
- Sim800Driver.Sim800.ReadSms, DeleteSms, SendSms, SetTextMode, SetCnmiMode, RejectIncomingCalls and SignalStrength require `ModemAnswers`, i.e. the reply eventually classifies as OK or ERROR. A modem that never answers makes the source's poll spin forever; that case is not modelled.
- The poll calls `sim_check_res` up to twice per round (the `&&` skips the second call once the first answers OK) and once more for the return value. The model calls it once per round. With no bytes arriving in between, the calls agree.
- `HAL_Delay(10)` in `sim_send_sms` and the UART transmit busy-waits are timing only. `putchar` is modelled as appending a byte to `sent`.
- Sim800Scan.PatternAt: a `strncmp` that would read past the end of the buffer counts as no match. The source reads past the array there, which is undefined.
- Sim800Extract.GetSmsContact requires the copy to stay inside the buffer (`ContactReadable`). Without a comma the source copies from `buf + MIN_BUFFER + 2`. Its `i == 0` test is kept; it never succeeds.
- Sim800Extract.GetSmsData requires the end not to precede the start (`DataReadable`) and `data` to be long enough. The source would pass a negative length, which `strncpy` reads as a huge size.
- Sim800Extract.SignalResult returns None where the source returns nothing. This happens when no colon exists, or when the digits would lie past the buffer.
- Sim800Scan.FindC requires `FindTerminates`: the character occurs in the scanned range or the span is below 255. Over the full range 0..255 with the character absent the source loops forever (`FindFullRangeNeverEnds`); that run is not modelled.
- Sim800Defs.ReadSmsCommandSpelled and DeleSmsCommandSpelled decode the index only below 100. `MAX_SMS` is not known, and larger indices write non-digit bytes.
- `sim_cmd_sw_flw_ctrl` and `sim_cmd_signal_strenth` are never written, so they are constants rather than arrays. Nothing in `Src/sim800l.c` sends AT+IFC.
- `RxCounter` is a `uint16_t` in the source. The model uses an unbounded natural that never exceeds MIN_BUFFER.
- The flag set by the timer interrupt and read by `vReadSensorData` is `volatile`. An interrupt between the test and the clear is not modelled.
- Sensor, display, LED and scheduler drivers are not part of this model. They appear as trace actions. The tasks `SCH_Run` runs are not modelled, nor are values they might change. Readings are one `Vitals` input per call, fixed for the whole loop iteration.
- Bring-up in Src/main.c (clock, peripheral init, `Error_Handler`) is register configuration. The print helpers are formatting and UART output, one with a float. `uiTimer16Counter`, `ecgFIFOIntFlag` and `bleData` are not used by the modelled functions. startup/Src/system_init.c and Src/uart.c are register-level I/O.

## Findings

| source | as written | input that shows it | evidently intended | confidence | as-written member | corrected member |
|---|---|---|---|---|---|---|
| Src/sim800l.c:41-65 | `find_c` returns the loop counter `|end2-end1| + 1` when the character is absent | an 11-byte buffer without `c`, `end1 = 3`, `end2 = 10`: the result is 8, the same as when `c` first sits at index 8 | a not-found answer that no index can be mistaken for (the comment names 255/0) | high, not executed | Sim800Scan.FindCharAmbiguous | Sim800Scan.FindFirstSeparates |
| Src/sim800l.c:49-58 | the loop counter `i` is a `uint8_t` tested with `i <= end2` | a 256-byte buffer without `c`, `end1 = 0`, `end2 = 255` (or the reverse): `i` wraps from 255 to 0 and the loop never ends | a search that ends on every range, answering not-found | high, not executed | Sim800Scan.FindFullRangeNeverEnds | Sim800Scan.FindFirstFrom |
