# Ultrasonic transducer controller (Sone firmware) in Dafny

This project models the AVR firmware that drives an ultrasonic transducer. An AD9833
waveform generator sets the drive frequency. An MCP4161 digital potentiometer sets the
PWM duty. An ACS712 sensor measures the current, and an input-capture timer measures
the PWM duty and frequency. An operator controls the driver from a serial console with
two-letter commands (ON, OF, FR 28000, PO 500, MO, LS, PS, SS ...) or with two
configurable push-button inputs. Ten settings "setups" are kept in the EEPROM.

The model follows the firmware's own structure, one module per source component:

- `FixedWidth` holds the C integer widths. The AVR `int` is 16 bits, so `U8`, `U16`,
  `U32`, `I8` and `I16` spell out every wrap-around. `CDiv` is C's truncating division.
- `LibC` holds the C-string view of a buffer, `toupper` and avr-libc `atoi`. `atoi`
  gives the decimal value wrapped to 16 bits.
- `PortMacros` models the register bit macros of PortMacros.h.
- `Timer` models the tick timer of Timer.h and Timer.c. The `Clock` class has
  the ISR and the foreground update.
- `Decimal`, `Bits`, `Serial` and `SerialLong` model the number printers (`%d`, `%x`,
  `%b` and their long forms).
  - Each printing loop is a method proved against a specification function.
  - That function is proved to round-trip to the printed value.
- `Uart` models the interrupt-driven UART:
  - two ring buffers (class `Fifo`, over an `array`);
  - the receive and transmit ISRs.
- `Command` models the console line editor (class `CommandLine`) and the
  case-insensitive `StrEQ`.
- `Parse` models the tokenizer (class `Parser`).
- `AD9833` models the frequency words sent to the generator, `Mcp41x1` the SPI
  transactions of the potentiometer.
- `CurrentSensor` and `PwmCapture` model the two measurement ISRs and their averaging.
- `TransducerDefs`, `Transducer` and `TransducerCmd` model the driver and its commands:
  - the settings and status records;
  - the class `Driver`, whose fields are the settings, the status and the words sent
    on each bus;
  - the serial commands and the two push-button inputs.
- `Setup` models the EEPROM setup table and the MO/LS/PS/SS commands.

Hardware is reduced to what the code sends and reads:

- The generator and the potentiometer are the sequences of words or SPI operations
  sent to them (`genBus`, `potBus`).
- Interrupt service routines are methods called with the captured value (`adc`, `icr`,
  the received character).
- `F_CPU` is a parameter of the capture object.

ACS712Update divides by `1023 * Cycles`, which it computes in a 16-bit `int`.
`CurrentSensor.AdcDivisor` models that wrap: from 33 sampled cycles on, the divisor is
no longer `1023 * Cycles`, and from 33 to 64 cycles it is negative.

## Model

| member | source | states |
|---|---|---|
| Timer.MsPerTickValue | Software/Sone/Src/Timer.h:213 | 25 ticks a second make one tick 40 ms, and 25 ticks are exactly 1000 ms |
| Timer.Seconds | Software/Sone/Src/Timer.h:209 | SECONDS(t) is the tick count for t seconds (25 t), truncated to a 32-bit TIME_T |
| Timer.Minutes | Software/Sone/Src/Timer.h:210 | MINUTES(t) is 1500 t ticks modulo 2^32 |
| Timer.Hours | Software/Sone/Src/Timer.h:211 | HOURS(t) is 90000 t ticks modulo 2^32 |
| Timer.TimesExact | Software/Sone/Src/Timer.h:209-211 | when nothing wraps, a minute is 60 seconds' ticks and an hour 60 minutes' ticks |
| Timer.Clock.Init | Software/Sone/Src/Timer.c:83-100 | TimerInit clears seconds, milliseconds and the changed flag, and loads the countdown with TIMER_COUNT |
| Timer.Clock.GetSeconds | Software/Sone/Src/Timer.c:152-160 | the seconds read are the whole seconds in the ticks handled so far, modulo 2^32 |
| Timer.Clock.GetMS | Software/Sone/Src/Timer.c:162-170 | the milliseconds read are below 1000 and a multiple of the 40 ms tick |
| Timer.Clock.Update | Software/Sone/Src/Timer.c:112-140 | TimerUpdate reports a tick exactly when the ISR flagged one; it adds 40 ms, carries into the seconds at 1000 and clears the flag; with no tick nothing changes |
| Timer.Clock.Isr | Software/Sone/Src/Timer.c:184-191 | the compare ISR flags a tick on every TIMER_COUNT-th interrupt and touches nothing else |
| Timer.AdvanceLemma | Software/Sone/Src/Timer.c:112-140 | one 40 ms step with the 1000 ms carry keeps (ms, seconds) equal to the tick count's remainder and quotient |
| PortMacros.PinMask | Software/Sone/Src/PortMacros.h:131 | _PIN_MASK(b) is a one-bit mask whose bit is b |
| PortMacros.SetMask | Software/Sone/Src/PortMacros.h:119 | _SET_MASK turns every masked bit on and keeps every other bit |
| PortMacros.ClrMask | Software/Sone/Src/PortMacros.h:120 | _CLR_MASK turns every masked bit off and keeps every other bit |
| PortMacros.ChgMask | Software/Sone/Src/PortMacros.h:121 | _CHG_MASK inverts the masked bits and keeps every other bit |
| PortMacros.GetMask | Software/Sone/Src/PortMacros.h:122 | _GET_MASK keeps only the masked bits, and together with the unmasked bits it rebuilds the register |
| PortMacros.SetBit | Software/Sone/Src/PortMacros.h:133 | _SET_BIT turns bit b on and leaves the other seven bits alone |
| PortMacros.ClrBit | Software/Sone/Src/PortMacros.h:134 | _CLR_BIT turns bit b off and leaves the other seven bits alone |
| PortMacros.ChgBit | Software/Sone/Src/PortMacros.h:135 | _CHG_BIT inverts bit b and leaves the other seven bits alone |
| PortMacros.BitOn | Software/Sone/Src/PortMacros.h:143 | _BIT_ON holds exactly when bit b of the register is 1 |
| PortMacros.BitOff | Software/Sone/Src/PortMacros.h:144 | _BIT_OFF holds exactly when bit b of the register is 0 |
| PortMacros.ChgBitTwice | Software/Sone/Src/PortMacros.h:135 | toggling a bit twice restores the register |
| PortMacros.BitOnOffComplement | Software/Sone/Src/PortMacros.h:143-144 | _BIT_ON and _BIT_OFF are complements |
| PortMacros.SetThenClr | Software/Sone/Src/PortMacros.h:133-134 | clearing a bit after setting it is the same as clearing it |
| PortMacros.ScaleRatio | Software/Sone/Src/PortMacros.h:191 | the rounded ratio x*n/d is the nearest integer to the exact ratio (ties round up) |
| Decimal.DecimalDigits | Software/Sone/Src/Serial.c:188-222 | the printed digits are nonempty, all decimal, and start with 0 only for the value 0 |
| Decimal.DigitsRoundTrip | Software/Sone/Src/Serial.c:188-222 | the printed digits read back as the value |
| Decimal.FormatD | Software/Sone/Src/Serial.c:161-168 | the %d field: the digits right-justified in width W (padded with zeros when W > 100), or left-justified in -W, never truncated |
| Decimal.CorrectBaseIsFormatD | Software/Sone/Src/Serial.c:199 | with the place count as its base, the printer's padding rule yields the intended field, as Serial.c and SerialLong.c:107 are meant to |
| Decimal.CountDivisor | Software/Sone/Src/Serial.c:192-195 | the subtraction loop yields the quotient and the remainder |
| Decimal.PadLeading | Software/Sone/Src/Serial.c:198-206 | the leading pad is (width - digits) pad characters, and the width left is the digit count as an int8 |
| Decimal.PadCountdown | Software/Sone/Src/Serial.c:216-219 | the last digit's countdown emits width - 1 pads |
| Decimal.PadTrailing | Software/Sone/Src/Serial.c:226-228 | a left-justified field is closed with -width - printed - 1 pads |
| Decimal.PrintPlace | Software/Sone/Src/Serial.c:188-211 | one decimal place of the loop keeps the invariant "the output so far is the lead pads and the significant digits of the part above this place" |
| Decimal.PrintDecimal | Software/Sone/Src/Serial.c:174-229 | the whole digit loop prints exactly the specified characters for the value, the width code and the padding base |
| Decimal.PrintLast | Software/Sone/Src/Serial.c:216-228 | the last digit and its pads finish the field as specified |
| Decimal.FinishDigits | Software/Sone/Src/Serial.c:213-229 | after every place but the last, the last digit completes the specified output |
| Serial.PrintD | Software/Sone/Src/Serial.c:174-229 | PrintD prints the intended %d field of a 16-bit value, and its digits read back as the value |
| Serial.PrintH | Software/Sone/Src/Serial.c:241-251 | PrintH prints two hex digits that read back as the byte |
| Serial.PrintB | Software/Sone/Src/Serial.c:263-269 | PrintB prints the byte's eight bits, most significant first, which read back as the byte |
| SerialLong.PrintLD | Software/Sone/Src/SerialLong.c:82-137 | PrintLD as written, which pads with Chars = 5 - Index: the characters of the padding rule with base 5 over ten places |
| SerialLong.PrintLDIntended | Software/Sone/Src/SerialLong.c:67-77 | the corrected PrintLD prints the %ld field, the digits justified in the width |
| SerialLong.PrintLDAgreesUnlessRightJustified | Software/Sone/Src/SerialLong.c:107 | as written and intended agree for one-digit values and for left-justified fields |
| SerialLong.PrintLDMisjustifies | Software/Sone/Src/SerialLong.c:107 | as written, 12 in width 5 prints "12 " instead of "   12", and in zero-padded width 105 prints "120" instead of "00012" |
| SerialLong.PrintLH | Software/Sone/Src/SerialLong.c:155-165 | PrintLH prints eight hex digits that read back as the 32-bit value |
| SerialLong.HexLongIsNibbles | Software/Sone/Src/SerialLong.c:157-164 | the shift-and-mask loop prints the value's eight nibbles, most significant first |
| SerialLong.PrintLB | Software/Sone/Src/SerialLong.c:177-183 | PrintLB as written tests the mask 0x800000: it prints bits 23 down to 0 and then eight zeros |
| SerialLong.PrintLBIntended | Software/Sone/Src/SerialLong.c:171-176 | the corrected PrintLB prints all 32 bits, most significant first, reading back as the value |
| SerialLong.PrintLBShowsLowBitsShifted | Software/Sone/Src/SerialLong.c:181 | as written, the last eight characters are always 0 and the first 24 are the intended output's last 24; the value 1 shows it |
| Bits.ShiftOutBits | Software/Sone/Src/Serial.c:266-268 | the test-and-shift loop prints bit maskBit of every successive left shift, that is the bits maskBit, maskBit-1, ... of the value |
| Bits.BinaryRoundTrip | Software/Sone/Src/Serial.c:263-269 | n bits printed most significant first read back as the value |
| Bits.HexRoundTrip | Software/Sone/Src/SerialLong.c:155-165 | n hex digits printed most significant first read back as the value |
| Bits.ShiftLeftBit | Software/Sone/Src/Serial.c:268 | `Value <<= 1` in w bits moves every bit one place up |
| Bits.HexCharInverse | Software/Sone/Src/Serial.c:241-245 | the hex digit printed for a nibble reads back as that nibble |
| Bits.HexNibbleAt | Software/Sone/Src/SerialLong.c:157-164 | digit i of the hex text is the nibble (v >> 4(n-1-i)) & 0x0F |
| Uart.WrapIsMod | Software/Sone/Src/UART.c:80-81 | masking an index with size - 1 wraps it like modulo the power-of-two FIFO size (8 in, 64 out) |
| Uart.Fifo.Clear | Software/Sone/Src/UART.c:108 | a cleared FIFO is empty, its indexes 0 and its buffer zeroed |
| Uart.Fifo.Put | Software/Sone/Src/UART.c:162-168 | a byte is queued exactly when the FIFO has room (one slot stays empty); otherwise nothing changes |
| Uart.Fifo.Take | Software/Sone/Src/UART.c:194-197 | the oldest byte is removed and returned; an empty FIFO gives nothing |
| Uart.Port.Init | Software/Sone/Src/UART.c:106-136 | UARTInit empties both FIFOs and leaves the transmit interrupt off |
| Uart.Port.PutByte | Software/Sone/Src/UART.c:153-173 | PutUARTByte appends the byte when the output FIFO has room, and enables the transmit interrupt in every case |
| Uart.Port.GetByte | Software/Sone/Src/UART.c:189-202 | GetUARTByte returns the oldest received byte, or NUL when nothing was received |
| Uart.Port.Busy | Software/Sone/Src/UART.c:215 | UARTBusy holds exactly when output is still queued |
| Uart.Port.RxIsr | Software/Sone/Src/UART.c:228-247 | the receive ISR appends the byte when the input FIFO has room and drops it when full |
| Uart.Port.TxIsr | Software/Sone/Src/UART.c:261-275 | the transmit ISR sends the oldest queued byte, or turns its interrupt off when nothing is queued |
| Command.Fold | Software/Sone/Src/Command.c:121-122 | StrEQ's case folding maps NUL, and only NUL, to NUL |
| Command.StrEQMeaning | Software/Sone/Src/Command.c:112-136 | StrEQ holds exactly when the two C strings are equal up to case or, when the first holds a space, its part before the space equals the start of the second up to case |
| Command.StrEQEmpty | Software/Sone/Src/Command.c:114 | an empty command matches exactly the empty word |
| Command.StrEQExamples | Software/Sone/Src/Command.c:112-136 | "off" matches "OFF"; "OF" does not match "OFF", nor "OFF" match "OF" |
| Command.StrEQStopsAtSpace | Software/Sone/Src/Command.c:118-119 | a command line matches its verb: "FR 28000" matches "FR"; "F" does not |
| Command.CommandLine.Line | Software/Sone/Src/Command.c:98-99 | the line is the NUL-terminated text of the buffer, at most MAX_CMD_LENGTH characters |
| Command.CommandLine.constructor | Software/Sone/Src/Command.c:147-151 | a new command buffer holds the empty line |
| Command.CommandLine.InitCommandBuffer | Software/Sone/Src/Command.c:147-151 | InitCommandBuffer empties the line |
| Command.CommandLine.ProcessSerialInput | Software/Sone/Src/Command.c:372-449 | NUL and LF are ignored; BS erases a character (echoing BS SP BS) when there is one; CR dispatches the line and ESC the escape command, both emptying it; any other character is echoed and appended while there is room |
| FixedWidth.CDiv | Software/Sone/Src/ACS712.c:138 | C's `/` truncates toward zero: the remainder is smaller than the divisor and has the dividend's sign |
| LibC.CStrTerminated | Software/Sone/Src/Command.c:98-99 | a buffer's C string is its text up to the first NUL |
| LibC.Atoi | Software/Sone/Src/TransducerCmd.c:144 | atoi is the parsed decimal value wrapped to a 16-bit int, and 0 for an empty word |
| LibC.AtoiOfDecimal | Software/Sone/Src/TransducerCmd.c:168 | atoi of a number's digits is the number wrapped to 16 bits, and the number itself below 32768 |
| LibC.ParsedValueOfDecimal | Software/Sone/Src/Setup.c:356 | the digits of n denote n before any wrap |
| Parse.SkipDelimiters | Software/Sone/Src/Parse.c:105-106 | skipping stops at the first character that is not a space or tab, or at the end |
| Parse.TokenLength | Software/Sone/Src/Parse.c:112-116 | a token runs to the next delimiter or NUL, but no further than MAX_TOKEN_LENGTH characters |
| Parse.NextToken | Software/Sone/Src/Parse.c:94-119 | ParseToken returns the next word of at most MAX_TOKEN_LENGTH characters after the delimiters, and the cursor just past it; it is empty exactly at the end of the line |
| Parse.EmptyTokenMeansExhausted | Software/Sone/Src/Parse.c:92 | an empty token is returned exactly when only delimiters remain |
| Parse.LongWordSplits | Software/Sone/Src/Parse.c:112-116 | a word longer than MAX_TOKEN_LENGTH comes back in pieces: the next token continues it |
| Parse.TokenBufferUnterminated | Software/Sone/Src/Parse.c:70 | as written, a ten-character word fills Token[MAX_TOKEN_LENGTH] with no NUL left |
| Parse.TokenBufferTerminated | Software/Sone/Src/Parse.c:114 | with one byte more, the buffer's C string is always the token |
| Parse.Parser.ParseInit | Software/Sone/Src/Parse.c:80-83 | ParseInit starts parsing the given line at its beginning |
| Parse.Parser.ParseToken | Software/Sone/Src/Parse.c:94-119 | ParseToken returns NextToken, moves the cursor past it and leaves the token, NUL-filled, in the buffer |
| Parse.Parser.ClearToken | Software/Sone/Src/Parse.c:97 | the token buffer is zeroed |
| Parse.Parser.SkipLeadingDelimiters | Software/Sone/Src/Parse.c:105-106 | the cursor moves past the delimiters |
| Parse.Parser.CopyToken | Software/Sone/Src/Parse.c:112-116 | the copy loop moves the token into the buffer and the cursor past it |
| Parse.TokenLengthIs | Software/Sone/Src/Parse.c:112-116 | any run of word characters ending where the loop stops is the token length |
| AD9833.Divisor | Software/Sone/Src/AD9833.c:153-175 | the 28-bit frequency word is freq * 2^28 / CLKIN, rounded down or one less |
| AD9833.DivisorBounds | Software/Sone/Src/AD9833.c:161-175 | the two-stage 32-bit computation stays in 28 bits and within one of the exact word |
| AD9833.FreqLow | Software/Sone/Src/AD9833.c:194 | the low frequency word carries the FREQ0 tag and the divisor's low 14 bits |
| AD9833.FreqHigh | Software/Sone/Src/AD9833.c:195 | the high frequency word carries the FREQ0 tag and the divisor's high 14 bits |
| AD9833.FreqWordsRecombine | Software/Sone/Src/AD9833.c:194-202 | the two words together give back the 28-bit divisor |
| AD9833.ModeWord | Software/Sone/Src/AD9833.c:205-207 | the mode word is a control word (B28 set, register bits clear) |
| AD9833.WordBytes | Software/Sone/Src/AD9833.c:87-92 | every word goes out as two bytes |
| AD9833.WordBytesAt | Software/Sone/Src/AD9833.c:87-92 | each word is sent high byte first |
| AD9833.WordBytesRoundTrip | Software/Sone/Src/AD9833.c:87-92 | the two bytes rebuild the word |
| AD9833.Generator.Init | Software/Sone/Src/AD9833.c:104-116 | AD9833Init sends the reset word and records the output as off at 0 Hz |
| AD9833.Generator.Output | Software/Sone/Src/AD9833.c:130-210 | off sends only the reset word; any waveform sends reset, the two frequency words, phase 0 and the mode word, and records the frequency |
| AD9833.Generator.GetFreq | Software/Sone/Src/AD9833.c:234 | the frequency read back is 16-bit |
| Mcp41x1.R2W | Software/Sone/Src/MCP4161.h:89 | R2W converts ohms to the nearest wiper step when the 32-bit product does not wrap, cast to uint16 |
| Mcp41x1.W2R | Software/Sone/Src/MCP4161.h:90 | W2R converts a wiper step to the nearest ohm value under the same condition |
| Mcp41x1.R2WEnds | Software/Sone/Src/MCP4161.h:89 | 0 ohms is step 0 and full scale the top step |
| Mcp41x1.W2REnds | Software/Sone/Src/MCP4161.h:90 | step 0 is 0 ohms and the top step is full scale |
| Mcp41x1.Transaction | Software/Sone/Src/MCP4161.h:129-134 | a transaction is chip select, the bytes and chip deselect |
| Mcp41x1.SentFramed | Software/Sone/Src/MCP4161.h:129-134 | the bytes sent inside one select/deselect frame are exactly those bytes |
| Mcp41x1.Command | Software/Sone/Src/MCP4161.h:131 | the command byte has the address in its high nibble and the operation in its low nibble |
| Mcp41x1.Write | Software/Sone/Src/MCP4161.h:129-134 | a write is one framed transaction of the write command and the data byte |
| Mcp41x1.Incr | Software/Sone/Src/MCP4161.h:136-140 | an increment is one framed increment command |
| Mcp41x1.Decr | Software/Sone/Src/MCP4161.h:142-146 | a decrement is one framed decrement command |
| Mcp41x1.SetWiper | Software/Sone/Src/MCP4161.h:176-178 | setting the wiper writes the low byte of the value to wiper 0 |
| Mcp41x1.SetResist | Software/Sone/Src/MCP4161.h:190-192 | setting a resistance writes the low byte of its wiper step to wiper 0 |
| Mcp41x1.SetResistFullScale | Software/Sone/Src/MCP4161.h:87 | full scale is step 257 on the MCP4161 and 129 on the MCP4131, sent as 0x01 and 0x81: the top step does not fit in the data byte |
| Mcp41x1.Init | Software/Sone/Src/MCP4161.h:157-164 | the init deselects, then connects every terminal of resistor 0 and sets the wiper to mid-scale, each in its own frame |
| Mcp41x1.PutRegBytes | Software/Sone/Src/MCP4161.h:252-258 | a register write is two bytes, addressed in the high nibble |
| Mcp41x1.PutReg | Software/Sone/Src/MCP4161.h:252-258 | a register write is one framed transaction of those bytes |
| Mcp41x1.GetReg | Software/Sone/Src/MCP4161.h:232-241 | a register read sends the read command with the pull-up bits and a dummy 0xFF |
| Mcp41x1.DecodeReg | Software/Sone/Src/MCP4161.h:240 | the value read back is at most 10 bits |
| Mcp41x1.PutGetRoundTrip | Software/Sone/Src/MCP4161.h:232-258 | a 10-bit value written to a register decodes to the same value |
| CurrentSensor.AdcDivisor | Software/Sone/Src/ACS712.c:138 | the divisor 1023*Cycles, computed in int16: exact up to 32 cycles, wrong from 33 on and negative from 33 to 64 |
| CurrentSensor.Voltage | Software/Sone/Src/ACS712.c:135-138 | the averaged voltage, in units of 0.01 V, is between 0 and 500 when the divisor does not wrap, and is the exact ratio rounded down |
| CurrentSensor.VoltageInRange | Software/Sone/Src/ACS712.c:138 | the truncating C division gives that bounded, rounded-down voltage |
| CurrentSensor.Current | Software/Sone/Src/ACS712.c:145-146 | with the sensor mounted reversed, the current is 250 minus the voltage, within -250..250 |
| CurrentSensor.Sensor.Init | Software/Sone/Src/ACS712.c:84-108 | ACS712Init clears the reading and the sums and loads the skip count |
| CurrentSensor.Sensor.Update | Software/Sone/Src/ACS712.c:120-150 | ACS712Update stores the current of the sums gathered and restarts them |
| CurrentSensor.Sensor.GetCurrent | Software/Sone/Src/ACS712.c:163 | the current is returned as an unsigned 16-bit value (negative values wrap) |
| CurrentSensor.Sensor.Isr | Software/Sone/Src/ACS712.c:175-195 | every ACS712_SKIP-th conversion is added to the 16-bit sum and counted, the others are skipped |
| PwmCapture.DutyPerMille | Software/Sone/Src/PWM.c:158 | the duty in tenths of a percent is at most 1000 and the exact ratio rounded down when the high time is within the period |
| PwmCapture.QuotientBounds | Software/Sone/Src/PWM.c:158 | the quotient is bounded and is the rounded-down ratio |
| PwmCapture.FrequencyHz | Software/Sone/Src/PWM.c:159 | the frequency is F_CPU cycles over the counted ticks, rounded down, when the 32-bit product and the 16-bit result do not wrap |
| PwmCapture.QuotientNoWrap | Software/Sone/Src/PWM.c:159 | the 32-bit then 16-bit casts do not change a quotient that fits |
| PwmCapture.Capture.Init | Software/Sone/Src/PWM.c:106-122 | PWMInit clears every sum and reading and loads the skip count |
| PwmCapture.Capture.Update | Software/Sone/Src/PWM.c:133-161 | PWMUpdate computes duty and frequency from the sums (0 when none) and restarts the sums |
| PwmCapture.Capture.GetPWM | Software/Sone/Src/PWM.c:172 | the duty read is 16-bit |
| PwmCapture.Capture.GetPWMFreq | Software/Sone/Src/PWM.c:184 | the frequency read is 16-bit |
| PwmCapture.Capture.Isr | Software/Sone/Src/PWM.c:196-244 | the capture ISR skips edges while counting down, notes a falling edge, then the first rising edge, and adds a whole period and its high time on the second rising edge, keeping the high-time sum within the period sum |
| PwmCapture.Capture.CloseCycle | Software/Sone/Src/PWM.c:236-243 | closing a cycle adds the period and its high time, counts the cycle and reloads the skip count |
| PwmCapture.PwmWithinFreq | Software/Sone/Src/PWM.c:238-239 | adding a period and its high part keeps the high-time sum within the period sum |
| TransducerDefs.FrequencyBoundsOrdered | Software/Sone/Src/Transducer.h:115-120 | the default frequency lies within the minimum and maximum, and the maximum power is 1000 |
| TransducerDefs.EnumCounts | Software/Sone/Src/Transducer.h:134 | there are 2 run modes, 2 control modes and 4 input actions |
| TransducerDefs.IdxCtlMode | Software/Sone/Src/Transducer.h:147 | IDX_CTLMODE yields an index into the control-mode tables |
| TransducerDefs.IdxAction | Software/Sone/Src/Transducer.h:165 | IDX_ACTION yields an index into the action tables |
| TransducerDefs.CtlModeAt | Software/Sone/Src/Transducer.h:147 | the control mode at an index has that index |
| TransducerDefs.ActionAt | Software/Sone/Src/Transducer.h:165 | the action at an index has that index |
| TransducerDefs.IndexesDistinct | Software/Sone/Src/Transducer.h:147 | the index macros are one-to-one and inverted by the table lookups |
| TransducerDefs.DefaultsValid | Software/Sone/Src/Transducer.c:68-74 | the default settings are in range |
| Transducer.SwitchOn | Software/Sone/Src/Transducer.c:167-190 | TransducerOn turns the output on unless in emergency stop, loads the run timer in timed mode, clears it when turned off, changes nothing else and keeps "on implies not stopped" |
| Transducer.SetEStop | Software/Sone/Src/Transducer.c:145-154 | setting the emergency stop turns the output off and clears the timer; releasing it changes only the flag |
| Transducer.EStopBlocksOn | Software/Sone/Src/Transducer.c:179-180 | while stopped, ON changes nothing and the output stays off |
| Transducer.ReleaseLeavesOff | Software/Sone/Src/Transducer.c:145-154 | stopping then releasing leaves the output off |
| Transducer.PowerOf | Software/Sone/Src/Transducer.c:378-383 | the power is current times drive volts times duty over 1000, rounded down, when the 16-bit product does not wrap |
| Transducer.PowerExact | Software/Sone/Src/Transducer.c:380-383 | the casts in the power formula lose nothing when the products fit |
| Transducer.Measure | Software/Sone/Src/Transducer.c:369-383 | the status takes the measured frequency and current, the PWM scaled by 2 in 16 bits and the power of those, and nothing else |
| Transducer.Countdown | Software/Sone/Src/Transducer.c:388-391 | a timed run counts down and may only turn the output off; otherwise nothing changes |
| Transducer.CountdownRunning | Software/Sone/Src/Transducer.c:388-391 | k ticks before the end of a timed run the timer has dropped by k and the output is on |
| Transducer.TimedRunLength | Software/Sone/Src/Transducer.c:185-186 | a timed run of T ticks is on for T-1 updates and off after the T-th |
| Transducer.CountdownsSplit | Software/Sone/Src/Transducer.c:388-391 | k+1 updates are k updates and one more |
| Transducer.TimedRunFromZero | Software/Sone/Src/Transducer.c:389 | a timed run started at 0 wraps to 65535 and stays on |
| Transducer.TimedRunFromZeroLength | Software/Sone/Src/Transducer.c:389 | a timed run from 0 lasts 65536 updates |
| Transducer.SwitchOnTimedFromZero | Software/Sone/Src/Transducer.c:185-186 | switching on with run time 0 runs the longest time, 65536 updates |
| Transducer.AdjustedWiper | Software/Sone/Src/Transducer.c:270-320 | the wiper moves at most one step: down only when on, too strong and PWM nonzero, up only when on, too weak and PWM at most 96 %; it does move when it can, and stays within the top step |
| Transducer.AdjustSteady | Software/Sone/Src/Transducer.c:275-276 | off or at the target power, the wiper does not move |
| Transducer.SquareWords | Software/Sone/Src/Transducer.c:241 | setting up the generator sends five words starting with the reset word |
| Transducer.Driver.constructor | Software/Sone/Src/Transducer.c:65-74 | a new driver owns fresh generator, capture and sensor objects and has sent nothing |
| Transducer.Driver.Init | Software/Sone/Src/Transducer.c:85-132 | TransducerInit loads the defaults, starts in emergency stop with the initial wiper, and sends the potentiometer init and wiper and the generator reset and square wave |
| Transducer.Driver.Reset | Software/Sone/Src/Transducer.c:90-120 | the reset part restores the defaults and zero status and resets the devices |
| Transducer.Driver.EStop | Software/Sone/Src/Transducer.c:145-154 | TransducerEStop applies SetEStop to the status and changes nothing else |
| Transducer.Driver.On | Software/Sone/Src/Transducer.c:167-190 | TransducerOn applies SwitchOn and sets the shutdown line to the opposite of the output |
| Transducer.Driver.SetRunMode | Software/Sone/Src/Transducer.c:204-208 | only the run mode and run time change |
| Transducer.Driver.SetCtlMode | Software/Sone/Src/Transducer.c:221-224 | only the control mode changes |
| Transducer.Driver.SetFreq | Software/Sone/Src/Transducer.c:237-242 | the frequency setting changes and the generator is set up at it |
| Transducer.Driver.SetPower | Software/Sone/Src/Transducer.c:255-258 | only the power setting changes |
| Transducer.Driver.SetWiper | Software/Sone/Src/TransducerCmd.c:274 | the wiper changes and is sent to the potentiometer |
| Transducer.Driver.Setup | Software/Sone/Src/Transducer.c:333-339 | the generator is set up at the configured frequency |
| Transducer.Driver.AdjustPower | Software/Sone/Src/Transducer.c:270-320 | the wiper becomes AdjustedWiper and is sent only when it moved |
| Transducer.Driver.Update | Software/Sone/Src/Transducer.c:353-416 | TransducerUpdate closes both measurement intervals (the duty and frequency come from the closed sums, 0 when no tick was counted), stores the measurements in the status and counts a timed run down; settings and both buses are untouched |
| TransducerCmd.VerbOf | Software/Sone/Src/TransducerCmd.c:75-258 | the verb is Off exactly for OF or OFF, and a line read as no driver verb matches neither ON nor FR |
| TransducerCmd.FreqRequestAsWritten | Software/Sone/Src/TransducerCmd.c:144-157 | as written, FR accepts only values below 32768, because the range test sees the 16-bit atoi |
| TransducerCmd.FreqAsWrittenRefusesHighRange | Software/Sone/Src/TransducerCmd.c:144-146 | as written, every in-range frequency from 32768 to the maximum is refused |
| TransducerCmd.FreqAsWrittenAcceptsWrapped | Software/Sone/Src/TransducerCmd.c:144-146 | as written, "FR 85536" is accepted as 20000 Hz |
| TransducerCmd.FreqRequest | Software/Sone/Src/TransducerCmd.c:144-159 | corrected FR: accepted exactly when the typed number is in range, which then becomes the frequency |
| TransducerCmd.FreqRequestAcceptsRange | Software/Sone/Src/TransducerCmd.c:144-159 | every in-range frequency typed is accepted as itself |
| TransducerCmd.PowerRequest | Software/Sone/Src/TransducerCmd.c:167-183 | PO is accepted exactly when atoi is within the power range, and sets that power |
| TransducerCmd.PowerRequestAcceptsRange | Software/Sone/Src/TransducerCmd.c:167-183 | every in-range power typed is accepted as itself |
| TransducerCmd.WiperRequest | Software/Sone/Src/TransducerCmd.c:259-274 | PW (the power-wiper command) is accepted exactly when atoi is a wiper step, and sets it |
| TransducerCmd.WiperRequestAcceptsRange | Software/Sone/Src/TransducerCmd.c:259-274 | every wiper step typed is accepted as itself |
| TransducerCmd.Interpret | Software/Sone/Src/TransducerCmd.c:70-281 | with the corrected FR: only the driver's verbs are handled; FR and PO only set values in range, PW only a wiper step, and every value fits its field |
| TransducerCmd.SofterWrapsAtZero | Software/Sone/Src/TransducerCmd.c:207 | S (softer, power - 10) at power 0 sets power 65526, out of range |
| TransducerCmd.FreqUpLeavesRange | Software/Sone/Src/TransducerCmd.c:215 | U (frequency + 100) at the maximum frequency sets 100 Hz above it |
| TransducerCmd.SettingsAfter | Software/Sone/Src/TransducerCmd.c:70-281 | a command changes at most the frequency and power settings |
| TransducerCmd.StatusAfter | Software/Sone/Src/TransducerCmd.c:70-281 | a command keeps "on implies not stopped", only ON can turn the output on, and ES stops it |
| TransducerCmd.OnCommandOutcome | Software/Sone/Src/TransducerCmd.c:87-101 | ON turns the output on exactly when not stopped (or already on), and answers "can't output in E-Stop" exactly when stopped |
| TransducerCmd.TransducerCmd | Software/Sone/Src/TransducerCmd.c:70-281 | with the corrected FR: TransducerCommand handles exactly the driver's verbs, reads the argument word when the verb takes one, and performs the interpreted request with its reply |
| TransducerCmd.ArgumentCommand | Software/Sone/Src/TransducerCmd.c:130-276 | the argument verbs FR (corrected), PO and PW parse one word and perform its request |
| TransducerCmd.PlainCommand | Software/Sone/Src/TransducerCmd.c:75-244 | the verbs without argument perform their request |
| TransducerCmd.SwitchCommand | Software/Sone/Src/TransducerCmd.c:75-124 | ON, OF (or OFF), ES and RE perform their request |
| TransducerCmd.PowerBump | Software/Sone/Src/TransducerCmd.c:197-209 | L and S (power + 10 and - 10) perform their request |
| TransducerCmd.FreqBump | Software/Sone/Src/TransducerCmd.c:214-244 | U and D (frequency + 100 and - 100) and + and - (frequency + 20 and - 20) perform their request |
| TransducerCmd.FreqCommand | Software/Sone/Src/TransducerCmd.c:130-161 | FR performs its corrected request |
| TransducerCmd.PowerCommand | Software/Sone/Src/TransducerCmd.c:166-185 | PO performs its request |
| TransducerCmd.WiperCommand | Software/Sone/Src/TransducerCmd.c:258-276 | PW performs its request |
| TransducerCmd.InputEffect | Software/Sone/Src/TransducerCmd.c:303-333 | an input keeps "on implies not stopped"; unused inputs and releases (except direct control) change nothing; the E-Stop input stops the output |
| TransducerCmd.PushOnPushOff | Software/Sone/Src/TransducerCmd.c:321-324 | when not stopped, a push-on/push-off input toggles the output, and two presses restore it |
| TransducerCmd.DirectControlRelease | Software/Sone/Src/TransducerCmd.c:314-316 | releasing a direct-control input turns the output off and clears the timer |
| TransducerCmd.ProcessInput1 | Software/Sone/Src/TransducerCmd.c:294-334 | input 1 applies its action's effect and announces when its print flag is set |
| TransducerCmd.Input2AnnouncesAsWritten | Software/Sone/Src/TransducerCmd.c:339 | as written, input 2's edges are announced by input 1's print flag |
| TransducerCmd.Input2Announces | Software/Sone/Src/TransducerCmd.c:339 | corrected: input 2 announces by its own print flag |
| TransducerCmd.Input2AnnounceDiscrepancy | Software/Sone/Src/TransducerCmd.c:339 | whenever the two flags differ, the code as written announces input 2 by input 1's flag |
| TransducerCmd.ProcessInput2 | Software/Sone/Src/TransducerCmd.c:337-377 | corrected: input 2 applies its action's effect and announces by its own print flag (the code tests Input1's flag) |
| Setup.SavedSlots | Software/Sone/Src/Setup.c:151-155 | saving replaces one slot and keeps the others |
| Setup.ReloadAfterSave | Software/Sone/Src/Setup.c:134-155 | a slot read after a save is what was saved there, or what was there before |
| Setup.Store.constructor | Software/Sone/Src/Setup.c:106-122 | the image holds the version and slots read from the chip |
| Setup.Store.Init | Software/Sone/Src/Setup.c:106-122 | SetupInit fills every slot with the defaults when the version differs, stamps the version and loads slot 0 |
| Setup.Store.Load | Software/Sone/Src/Setup.c:134-139 | LoadSetup makes slot n the settings and the current setup and sets the generator up |
| Setup.Store.Save | Software/Sone/Src/Setup.c:151-155 | SaveSetup stores the settings in slot n and nothing else |
| Setup.ActionOf | Software/Sone/Src/Setup.c:254-286 | the action found is one whose word matches, and none is found only when no word matches |
| Setup.ActionWordSelects | Software/Sone/Src/Setup.c:259-286 | each action's word selects it, in upper or lower case |
| Setup.PrintFlagOf | Software/Sone/Src/Setup.c:300-312 | no flag word means "do not announce", and only then |
| Setup.WithInput | Software/Sone/Src/Setup.c:243-244 | setting input 1 or 2 changes that input only |
| Setup.ModeVerbOf | Software/Sone/Src/Setup.c:334-395 | MO with no word only shows the mode |
| Setup.TwoCharMatch | Software/Sone/Src/Setup.c:390-392 | a token matching a two-letter word is that word up to case |
| Setup.InputWordIds | Software/Sone/Src/Setup.c:390-392 | corrected order: I1 and I2 select inputs 1 and 2 when the digit is read before the next word |
| Setup.ModeVerbTokenFirst | Software/Sone/Src/Setup.c:392 | as written, when ParseToken() runs first the input number is read from the action word |
| Setup.ActionWordNotInput1 | Software/Sone/Src/Setup.c:392 | no action word reads as input 1 in that order |
| Setup.TokenFirstSetsInput2 | Software/Sone/Src/Setup.c:235-241 | in that order an MO I1 line that sets an input sets input 2 and leaves input 1 |
| Setup.TokenFirstIds | Software/Sone/Src/Setup.c:392 | in that order "MO I1 XC" reads input 19 and a bare "MO I1" input 208 |
| Setup.RunTimeRequest | Software/Sone/Src/Setup.c:355-372 | MO RT is accepted exactly when a number is typed and atoi is not negative, and the run time is that value |
| Setup.RunTimeAcceptsRange | Software/Sone/Src/Setup.c:356-359 | every run time below 32768 is accepted and 32768 is refused (it wraps negative) |
| Setup.InputRequest | Software/Sone/Src/Setup.c:249-317 | MO Ix sets the input exactly when an action and a valid flag are given, to that action and flag |
| Setup.FlagRequest | Software/Sone/Src/Setup.c:300-315 | the input is set exactly when the flag word is valid |
| Setup.InputWordsSelect | Software/Sone/Src/Setup.c:249-317 | every action and announcement can be chosen by its words |
| Setup.ModeRequestOf | Software/Sone/Src/Setup.c:329-401 | only Ix sets an input (that input) and only RT a run time (below 32768) |
| Setup.ModeReads | Software/Sone/Src/Setup.c:329-401 | MO reads at most two more words |
| Setup.ModeSettings | Software/Sone/Src/Setup.c:347 | applying a mode request keeps the settings in range |
| Setup.OnlyConstFreqSettable | Software/Sone/Src/Setup.c:380-384 | MO can only set the constant-frequency control mode |
| Setup.UnknownWordsKeepInputs | Software/Sone/Src/Setup.c:289-311 | an unknown action or flag changes no setting |
| Setup.RunTimeZeroAccepted | Software/Sone/Src/Setup.c:358-359 | "MO RT 0" is accepted |
| Setup.RunTimeZeroRunsLongest | Software/Sone/Src/Setup.c:358-372 | and a timed run of 0 then lasts 65536 updates |
| Setup.ModeReply | Software/Sone/Src/Setup.c:329-401 | every MO request is answered |
| Setup.FlagReads | Software/Sone/Src/Setup.c:289-311 | the flag word is read exactly when the action word matched |
| Setup.MatchAction | Software/Sone/Src/Setup.c:254-286 | the action tests find an action exactly when ActionOf does, and the same one |
| Setup.ReadInputMode | Software/Sone/Src/Setup.c:249-317 | the MO Ix branch reads the flag word only after a valid action, and yields InputRequest |
| Setup.ReadRunTime | Software/Sone/Src/Setup.c:355-372 | the MO RT branch reads one word and yields RunTimeRequest |
| Setup.ReadMode | Software/Sone/Src/Setup.c:329-401 | MO reads the words ModeReads says and yields ModeRequestOf |
| Setup.ApplyMode | Software/Sone/Src/Setup.c:347 | the driver's settings become ModeSettings of the request |
| Setup.ModeCmd | Software/Sone/Src/Setup.c:329-401 | the MO command reads its words and applies ModeRequestOf |
| Setup.SetupVerbOf | Software/Sone/Src/Setup.c:418-457 | a command is Other exactly when it is none of MO, LS, PS, SS |
| Setup.SlotOf | Software/Sone/Src/Setup.c:428-434 | no slot typed means the current setup; the slot is the typed number wrapped to a byte |
| Setup.SlotOfDigits | Software/Sone/Src/Setup.c:458-464 | typing a slot number selects that slot |
| Setup.SlotText | Software/Sone/Src/Setup.c:438 | the slot reported is printed as its plain digits |
| Setup.SlotTextNamesSlot | Software/Sone/Src/Setup.c:438 | the reported text reads back as the slot |
| Setup.SavedTextAsWrittenMisreports | Software/Sone/Src/Setup.c:468 | as written, "SS 3" with current setup 0 reports "  0" instead of "3" |
| Setup.ShownSlotAsWritten | Software/Sone/Src/Setup.c:189-193 | as written, the uint8 SetupID never equals -1, so PrintSetup always names a slot, the byte of the number passed |
| Setup.WorkingSetShownAsSlot255 | Software/Sone/Src/Setup.c:449 | as written, PS without a number shows the working set as setup 255 |
| Setup.PrintStepNamesWorkingSet | Software/Sone/Src/Setup.c:445-452 | corrected: PS shows the working set exactly when no number is typed, and a typed number names a real slot |
| Setup.ModeStep | Software/Sone/Src/Setup.c:418-421 | MO changes only the cursor and the settings, keeps them in range and answers |
| Setup.LoadStep | Software/Sone/Src/Setup.c:427-440 | LS changes only the cursor, the current setup, the settings and the generator, and answers |
| Setup.PrintStep | Software/Sone/Src/Setup.c:445-452 | PS changes only the cursor and answers |
| Setup.SaveStep | Software/Sone/Src/Setup.c:457-470 | SS changes only the cursor and the slots and answers |
| Setup.SetupStep | Software/Sone/Src/Setup.c:413-473 | a setup command keeps the session valid |
| Setup.SetupStepKeeps | Software/Sone/Src/Setup.c:413-473 | only LS moves the current setup and the generator, only SS the slots, only MO and LS the settings; none touch the status or the potentiometer; only other commands go unanswered |
| Setup.MoVerb | Software/Sone/Src/Setup.c:418-421 | the MO branch performs ModeStep |
| Setup.LsVerb | Software/Sone/Src/Setup.c:427-440 | the LS branch performs LoadStep |
| Setup.ReadSlot | Software/Sone/Src/Setup.c:428-432 | the slot word is read and turned into the slot number |
| Setup.ReadShow | Software/Sone/Src/Setup.c:446-450 | corrected header: the PS branch shows the working set when no number is typed, the slot otherwise |
| Setup.ReadSave | Software/Sone/Src/Setup.c:458-468 | corrected reply: the SS branch saves the settings in the slot typed (or the current one) and reports that slot |
| Setup.PsVerb | Software/Sone/Src/Setup.c:445-452 | the PS branch performs PrintStep |
| Setup.SsVerb | Software/Sone/Src/Setup.c:457-470 | the SS branch performs SaveStep |
| Setup.SetupCmd | Software/Sone/Src/Setup.c:413-473 | SetupCommand handles exactly MO, LS, PS and SS and performs SetupStep |
| Setup.RunVerb | Software/Sone/Src/Setup.c:413-473 | each setup verb performs its step |
| Setup.LineVerb | Software/Sone/Src/Setup.c:413-473 | MO and PS perform their steps |
| Setup.SlotVerb | Software/Sone/Src/Setup.c:413-473 | LS and SS perform their steps |

## Left out

- EEPROM persistence is left out: EEPROMInit and the writes of the image. The setups table is its RAM copy, and the current version stamp is a parameter.
- Message texts are left out. Replies are datatype values, and the layout of PrintSetup and PrintInputMode is not modelled.
- NUMOF (PortMacros.h:182) is a compile-time array-length macro with nothing to prove.
- I/O and hardware registers are left out: SPI bit timing, the SG3525 shutdown pin, the baud-rate setup and the ADC setup. The bus models record what is sent; the ISRs take the value read from hardware as a parameter.
- Interrupt concurrency is left out. Each ISR is one atomic step, and the disable/enable pairs around shared reads are implicit.
- The input debouncing of Inputs.h and the outputs, screens and buzzer are not part of this model.
- AdjustPower is modelled, but Transducer.Driver.Update does not call it: the call is commented out in TransducerUpdate.
- Timer.Seconds, Timer.Minutes, Timer.Hours: the product t * 1000 is taken exactly before the TIME_T cast; the macro multiplies in the argument's own type, which overflows for a 16-bit int t from 33 and wraps for a uint32 t from 4294968. No code calls these macros.
- Transducer.Driver.Update: requires at least one sampled current cycle, because ACS712Update divides by the cycle count without a guard.
- CurrentSensor.Sensor.Update: requires at least one sampled cycle for the same reason.
- Setup.SetupCmd: requires a typed LS/SS/PS slot to be within the table, because the source indexes the slot array unchecked.
- Setup.LsVerb, Setup.SsVerb, Setup.PsVerb, Setup.RunVerb, Setup.SlotVerb, Setup.LineVerb: the same slot-in-range requirement.
- Setup.LoadStep, Setup.SaveStep, Setup.PrintStep, Setup.SetupStep, Setup.ReadShow, Setup.ReadSave: the same slot-in-range requirement.

## Findings

| source | as written | input that shows it | evidently intended | confidence | as-written member | corrected member |
|---|---|---|---|---|---|---|
| Software/Sone/Src/SerialLong.c:107 | the pad count is `Chars = 5 - Index` for a ten-place number | PrintLD(12, 5) prints "12 "; PrintLD(12, 105) prints "120" | the digits right-justified: "   12" and "00012" | not executed | SerialLong.PrintLD, SerialLong.PrintLDMisjustifies | SerialLong.PrintLDIntended, Decimal.CorrectBaseIsFormatD |
| Software/Sone/Src/SerialLong.c:181 | the bit test uses the mask 0x800000 | PrintLB(1) prints 23 zeros, a 1 and eight more zeros | bit 31 first: thirty-one zeros and then 1 | not executed | SerialLong.PrintLB, SerialLong.PrintLBShowsLowBitsShifted | SerialLong.PrintLBIntended |
| Software/Sone/Src/TransducerCmd.c:339 | input 2 announces when Input1.Print is set | input 2 with print on and input 1 with print off stays silent | input 2 announces by Input2.Print | not executed | TransducerCmd.Input2AnnouncesAsWritten, TransducerCmd.Input2AnnounceDiscrepancy | TransducerCmd.Input2Announces, TransducerCmd.ProcessInput2 |
| Software/Sone/Src/Parse.c:70 | Token[MAX_TOKEN_LENGTH] has no byte for the NUL of a full-length token | the word "ABCDEFGHIJ" fills all ten bytes | Token[MAX_TOKEN_LENGTH+1], always terminated | not executed | Parse.TokenBufferUnterminated | Parse.TokenBufferTerminated |
| Software/Sone/Src/TransducerCmd.c:144-146 | FR checks the range on the 16-bit atoi | "FR 85536" sets 20000 Hz; "FR 33000" is refused | accept exactly the typed values within the frequency range | not executed | TransducerCmd.FreqRequestAsWritten, TransducerCmd.FreqAsWrittenAcceptsWrapped, TransducerCmd.FreqAsWrittenRefusesHighRange | TransducerCmd.FreqRequest, TransducerCmd.FreqRequestAcceptsRange |
| Software/Sone/Src/Setup.c:468 | `PrintD(CurrSetup, SetupNum)` prints the current setup with the new slot as its width | "SS 3" with current setup 0 reports "  0" | report the slot saved: "3" | not executed | Setup.SavedTextAsWrittenMisreports | Setup.SaveStep, Setup.SlotTextNamesSlot |
| Software/Sone/Src/Setup.c:193 | `SetupID == -1` on a uint8 parameter is never true | "PS" with no number prints "Setup 255" | "Setup (working)" | not executed | Setup.ShownSlotAsWritten, Setup.WorkingSetShownAsSlot255 | Setup.PrintStepNamesWorkingSet, Setup.PrintStep |
| Software/Sone/Src/Setup.c:392 | `ModeInputCmd(Command[1] - '0', ParseToken())`: Command is the token buffer that ParseToken clears and refills, and C leaves the argument order open | with ParseToken() evaluated first, "MO I1 XC" passes input 19 and sets input 2 | read the digit of I1/I2 before the next word | not executed | Setup.ModeVerbTokenFirst, Setup.ActionWordNotInput1, Setup.TokenFirstSetsInput2, Setup.TokenFirstIds | Setup.ModeVerbOf, Setup.InputWordIds, Setup.ModeCmd |
