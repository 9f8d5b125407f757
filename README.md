# Weather-station web interface — a Dafny model

The firmware runs on a Raspberry Pi Pico W. Every second its main loop:

- reads an AHT20 (temperature and humidity) and a BMP280 (temperature and pressure);
- adds user-set calibration offsets;
- checks the readings against user-set limits;
- signals the outcome on a status LED, a buzzer and a 5×5 WS2812 LED matrix.

A small HTTP server on the same device does four things:

- reports the state as JSON (`GET /system_state`);
- accepts new limits together with the alerts gate (`POST /set_limits`);
- accepts new offsets (`POST /set_offsets`);
- serves one of two HTML pages for anything else.

Button B toggles the alerts gate. Button A flips which HTML page is served. Both are debounced with a 200 ms window.

The model covers:

- **Config** (`config.dfy`): the global configuration store, a `Store` class whose fields are the firmware's `g_*` globals.
- **Http** (`http.dfy`) models the HTTP handler:
  - `Handle` is its pure specification.
  - `HttpRecv`, `ServeSetLimits` and `ServeSetOffsets` update the store in place.
  - The `Exchange` class is the per-response state that `http_sent` advances.
  - It also covers the `sscanf` body formats, the response framing and the JSON report.
- **Buttons** (`buttons.dfy`): the button interrupt handler. The `Debouncer` class holds the two per-button timestamps, with 64-bit wrap-around.
- **Alerts** (`alerts.dfy`): the alert cascade of the main loop. `Evaluate` is the decision it takes, and `MatrixWrites` is the sequence of matrix colours it issues.
- **Monitor** (`monitor.dfy`): one loop iteration. Sensor values come in as parameters; the offsets are applied, the readings stored, and the alert block run.
- **Matrix** (`matrix.dfy`): the matrix driver. It packs colours as GRB (`Urgb`), forms the 32-bit pixel word, and emits the 25 words of `set_one_led` over a drawing array.
- **Text** (`text.dfy`) covers `strstr` and the decimal `%d` of `Content-Length`. **Common** (`common.dfy`) holds `Option`.

C `float` values are modelled as reals. Sensor values, the clock, the HTML page contents and the float-to-text conversions are parameters.

Three behaviours of the code worth stating:

- **Closing the connection.** `http_sent` closes the connection on the first acknowledgement that brings the count to the response length or beyond (`>=`).
- **Disabled alerts.** With alerts disabled the loop sets the status LED green and writes black to the matrix.
- **`set_limits` and the alerts gate.** `set_limits` assigns the gate from its integer field: non-zero means enabled.

## Model

| member | source | states |
|---|---|---|
| Text.IndexOf | meteriologicaInterfaceWeb.c:122 | `strstr`: the result is an occurrence of the pattern with none earlier, and it is absent exactly when the text does not contain the pattern |
| Text.FirstOccurrence | meteriologicaInterfaceWeb.c:164 | an occurrence with none before it is exactly the index `strstr` returns |
| Text.Decimal | meteriologicaInterfaceWeb.c:155 | `%d` of a count gives a non-empty string of digits with no leading zero |
| Text.DecimalRoundTrip | meteriologicaInterfaceWeb.c:155 | reading back the decimal text of a count gives the count |
| Text.DecimalInjective | meteriologicaInterfaceWeb.c:155 | two counts whose decimal texts are equal are the same count |
| Matrix.Urgb | lib/matriz/matriz.c:20-23 | the packed colour fits in 24 bits, with green in bits 16-23, red in 8-15 and blue in 0-7 |
| Matrix.UrgbInjective | lib/matriz/matriz.c:20-23 | different colours pack to different words |
| Matrix.UrgbBlack | lib/matriz/matriz.c:20-23 | black packs to 0, the word used for a dark LED |
| Matrix.PixelWord | lib/matriz/matriz.c:14-17 | the word pushed by `put_pixel` has a zero low byte and carries a 24-bit colour in its upper 24 bits unchanged |
| Matrix.Filled | lib/matriz/matriz.c:5-11 | the filled drawing has 25 entries, all lit |
| Matrix.Frame | lib/matriz/matriz.c:25-42 | a frame has 25 words; word i has a zero low byte and carries the packed colour when drawing entry i is lit and black otherwise |
| Matrix.FilledFrameIsUniform | lib/matriz/matriz.c:25-42 | with the filled drawing every LED gets the same colour word |
| Matrix.BlackFrameIsDark | lib/matriz/matriz.c:25-42 | writing black darkens every LED whatever the drawing |
| Matrix.SetOneLed | lib/matriz/matriz.c:25-42 | the loop emits exactly 25 words, word i being the pixel word of the colour or of 0 as drawing entry i says |
| Matrix.NewFilledDrawing | lib/matriz/matriz.c:5-11 | a fresh 25-entry array holding the filled drawing |
| Config.DefaultLimitsValid | meteriologicaInterfaceWeb.c:33-40 | the boot-time limits pass the `set_limits` range check |
| Config.Store.constructor | meteriologicaInterfaceWeb.c:28-50 | boot state: readings 0, limits 18-30 °C, 40-85 %, 98000-102000 Pa, zero offsets, alerts on, graphs page |
| Config.Store.WriteLimits | meteriologicaInterfaceWeb.c:173-179 | the six limits and the alerts gate take the new values; offsets, page and readings are unchanged |
| Config.Store.WriteOffsets | meteriologicaInterfaceWeb.c:216-218 | the three offsets take the new values; everything else is unchanged |
| Buttons.Elapsed | meteriologicaInterfaceWeb.c:68 | the `uint64_t` difference of clock values: the plain difference, or the difference plus 2^64 when the clock wrapped |
| Buttons.BounceIgnored | meteriologicaInterfaceWeb.c:68 | a press no more than 200000 µs after an accepted press is ignored |
| Buttons.LatePressAccepted | meteriologicaInterfaceWeb.c:68 | a press strictly more than 200000 µs after the last accepted press is accepted |
| Buttons.TogglePage | meteriologicaInterfaceWeb.c:78 | `1 - page` keeps the selector in {0, 1} and changes it |
| Buttons.Debouncer.constructor | meteriologicaInterfaceWeb.c:66-75 | both static timestamps start at 0 |
| Buttons.Debouncer.GpioIrq | meteriologicaInterfaceWeb.c:64-83 | an accepted button B press flips the alerts gate and records its time; an accepted button A press flips the page and records its time; anything else changes nothing; the page stays 0 or 1 |
| Buttons.DoublePress | meteriologicaInterfaceWeb.c:64-73 | two button B presses within one window toggle the gate exactly once and leave the page alone |
| Http.SelectRoute | meteriologicaInterfaceWeb.c:122-240 | the first marker the request contains picks the route, in the order GET state, set_limits, set_offsets; a request containing none gets a page |
| Http.RequestBody | meteriologicaInterfaceWeb.c:164-166 | no body exactly when the request has no CR LF CR LF; otherwise the body is the text after the first occurrence of it |
| Http.Convert | meteriologicaInterfaceWeb.c:170-171 | one `%f` or `%d` conversion yields a field of its kind and consumes at least one and at most all the input characters |
| Http.Scan | meteriologicaInterfaceWeb.c:170-171 | `sscanf` assigns at most one field per conversion, each of the conversion's kind |
| Http.ScanRoundTrip | meteriologicaInterfaceWeb.c:170-171 | on input laid out as literal, number text, literal, number text, and so on, `sscanf` returns the numbers in format order |
| Http.ScanNeedsLeadingLiteral | meteriologicaInterfaceWeb.c:170 | input that does not start with the format's first literal assigns no field |
| Http.ScanLimits | meteriologicaInterfaceWeb.c:170-171 | the body yields limits and an integer exactly when all seven conversions succeed |
| Http.ScanLimitsRoundTrip | meteriologicaInterfaceWeb.c:170-179 | a body with a number after each set_limits key yields each number in the limit of that key and the last one as the alerts integer |
| Http.ScanOffsets | meteriologicaInterfaceWeb.c:214-215 | the body yields offsets exactly when all three conversions succeed |
| Http.ScanOffsetsRoundTrip | meteriologicaInterfaceWeb.c:214-218 | a body with a number after each set_offsets key yields each number in the offset of that key |
| Http.ContentLengthIsBodyLength | meteriologicaInterfaceWeb.c:152-159 | the third header line is `Content-Length: ` followed by the decimal length of the body |
| Http.HeaderLinesAreLines | meteriologicaInterfaceWeb.c:186-188 | the four header lines are non-empty and contain no CR |
| Http.BodyAfterFirstBlankLine | meteriologicaInterfaceWeb.c:186-188 | a client splitting a response at its first blank line gets back exactly the body |
| Http.Render | meteriologicaInterfaceWeb.c:152-159 | the bytes written start with `HTTP/1.1 ` and end with a blank line followed by the body, so they are never empty; HeadBeforeFirstBlankLine gives the headers in between |
| Http.HeaderText | meteriologicaInterfaceWeb.c:152-157 | the status line and headers are `HTTP/1.1 ` and the status, `Content-Type: ` and the media type, `Content-Length: ` and the body length in decimal, and `Connection: close`, each ended by CR LF |
| Http.HeadBeforeFirstBlankLine | meteriologicaInterfaceWeb.c:152-159 | the bytes sent before the first blank line are exactly those four lines, so the Content-Length sent is the body length and every response says `Connection: close` |
| Http.StateFields | meteriologicaInterfaceWeb.c:125-150 | the JSON report has the 14 keys in order; the first 13 are `%.2f` numbers and `alerts_enabled` is the integer 1 when alerts are on and 0 when off |
| Http.StateReportIsComplete | meteriologicaInterfaceWeb.c:125-150 | two states with the same report have the same readings, offsets, limits and gate: only the page selector is not reported |
| Http.StateJson | meteriologicaInterfaceWeb.c:125-142 | the report is a `{`...`}` object followed by CR LF, which the firmware counts in its Content-Length |
| Http.OpenObject | meteriologicaInterfaceWeb.c:126-141 | the object text written so far always starts with `{` |
| Http.StateMemberTexts | meteriologicaInterfaceWeb.c:127-149 | member i of the report is `"key":value` for key i of the format string and the value passed in that position, with `alerts_enabled` written as 1 or 0 |
| Http.StateJsonText | meteriologicaInterfaceWeb.c:125-149 | the payload is `{`, the fourteen `"key":value` members in format order separated by commas, the thirteen floats as their two-decimal text and the gate as 1 or 0, then `}` and CR LF |
| Http.LookupFindsMember | meteriologicaInterfaceWeb.c:125-142 | a reader looking up a key finds the member with that key when no earlier member has it |
| Http.StateKeysDistinct | meteriologicaInterfaceWeb.c:126-141 | the 14 keys of the report are pairwise different |
| Http.ReportMember | meteriologicaInterfaceWeb.c:125-150 | every member of the report is what a reader finds under its key |
| Http.ReportCarriesReadings | meteriologicaInterfaceWeb.c:127-144 | `temperatura_aht`, `umidade_aht`, `temperatura_bmp` and `pressao_bmp` carry the four readings of those names |
| Http.ReportCarriesOffsets | meteriologicaInterfaceWeb.c:131-145 | the three `*_offset` keys carry the stored offsets |
| Http.ReportCarriesLimits | meteriologicaInterfaceWeb.c:135-149 | the six limit keys carry the stored limits, and `alerts_enabled` is 1 exactly when alerts are on |
| Http.DefaultStateReport | meteriologicaInterfaceWeb.c:33-48 | at boot the report carries the default limits, zero offsets and `alerts_enabled` 1 |
| Http.SetLimitsBranch | meteriologicaInterfaceWeb.c:162-207 | the set_limits branch answers in plain text, never touches offsets or the page, and changes the settings only on a 200 with limits that pass the range check |
| Http.SetOffsetsBranch | meteriologicaInterfaceWeb.c:208-237 | the set_offsets branch answers in plain text, never touches limits, the gate or the page, and changes the settings only on a 200 |
| Http.Handle | meteriologicaInterfaceWeb.c:101-263 | no request changes the page or the readings; only set_limits changes limits or the gate; only set_offsets changes offsets; a 400 changes nothing; accepted limits pass the range check |
| Http.MediaTypeFollowsRoute | meteriologicaInterfaceWeb.c:122-263 | JSON exactly for the state route, HTML exactly for the fallback, plain text exactly for the two POST routes |
| Http.SystemStateReport | meteriologicaInterfaceWeb.c:122-160 | a request containing `GET /system_state` gets 200 with the JSON report and changes nothing |
| Http.HtmlFallback | meteriologicaInterfaceWeb.c:240-263 | any other request gets 200 HTML: the graphs page when the selector is 0, the limits page otherwise; nothing changes |
| Http.SetLimitsOutcomes | meteriologicaInterfaceWeb.c:162-207 | every set_limits outcome with its message: no body, bad format and min ≥ max are 400 with nothing changed; otherwise limits and gate (non-zero means on) are stored and the answer is 200 |
| Http.SetOffsetsOutcomes | meteriologicaInterfaceWeb.c:208-237 | every set_offsets outcome with its message: no body and bad format are 400 with nothing changed; otherwise the offsets are stored with no range check and the answer is 200 |
| Http.SetLimitsIsReported | meteriologicaInterfaceWeb.c:162-179 | after an accepted set_limits, the next report shows the limits that were sent and `alerts_enabled` 1 exactly when the sent integer is non-zero |
| Http.SetOffsetsIsReported | meteriologicaInterfaceWeb.c:208-218 | after an accepted set_offsets, the next report shows the offsets that were sent |
| Http.Exchange.constructor | meteriologicaInterfaceWeb.c:109-115 | a new exchange holds the response and its length, with nothing acknowledged |
| Http.Exchange.Sent | meteriologicaInterfaceWeb.c:88-98 | the acknowledged count grows by the callback's length; the exchange closes exactly when the count has reached the response length |
| Http.ServeSetLimits | meteriologicaInterfaceWeb.c:162-207 | the store's new settings and the response are those of the set_limits branch of `Handle` (as `SetLimitsOutcomes` spells out); readings are unchanged |
| Http.ServeSetOffsets | meteriologicaInterfaceWeb.c:208-237 | the store's new settings and the response are those of the set_offsets branch of `Handle` (as `SetOffsetsOutcomes` spells out); readings are unchanged |
| Http.HttpRecv | meteriologicaInterfaceWeb.c:101-272 | a closed peer and a failed allocation change nothing and queue nothing; otherwise the store takes the settings `Handle` prescribes and a fresh exchange holds the rendered, non-empty response, open with nothing sent |
| Alerts.Flags | meteriologicaInterfaceWeb.c:426-456 | a quantity is flagged exactly when its reading (AHT20 temperature and humidity, BMP280 pressure) lies outside its closed range |
| Alerts.Classify | meteriologicaInterfaceWeb.c:426-460 | the cascade reports exactly the out-of-range quantities, except that with all three out it reports pressure and humidity; it is nominal exactly when nothing is out |
| Alerts.ReportedInjective | meteriologicaInterfaceWeb.c:426-460 | no two cascade branches report the same quantities |
| Alerts.ColourIdentifiesCategory | meteriologicaInterfaceWeb.c:428-458 | every branch lights a colour of its own |
| Alerts.CategoryColour | meteriologicaInterfaceWeb.c:428-458 | black is the colour of the nominal case only, and every channel is 0 or 125 |
| Alerts.Evaluate | meteriologicaInterfaceWeb.c:422-482 | the alert fires (red LED, tone, coloured matrix) exactly when alerts are enabled and some quantity is out of range |
| Alerts.DisabledIsQuiet | meteriologicaInterfaceWeb.c:478-482 | with alerts disabled the LED is green and the matrix black, whatever the readings |
| Alerts.BoundariesAreInRange | meteriologicaInterfaceWeb.c:426-460 | readings exactly on their limits raise no alert |
| Alerts.EnabledShowsCategory | meteriologicaInterfaceWeb.c:422-460 | with alerts enabled the matrix colour is that of the branch the cascade picks |
| Alerts.MatrixWrites | meteriologicaInterfaceWeb.c:422-482 | an iteration issues one or two matrix writes, all of the decision's colour, so the repeated pressure-and-humidity check never changes what is shown |
| Monitor.Calibrate | meteriologicaInterfaceWeb.c:391-420 | with zero offsets the readings are the sensor values; whatever the offsets, the two temperature readings differ by what the sensors measured |
| Monitor.OffsetsShiftReadings | meteriologicaInterfaceWeb.c:391-420 | changing an offset shifts the stored readings by exactly the change; the temperature offset moves both temperatures |
| Monitor.FramesAppend | lib/matriz/matriz.c:25-42 | the words of consecutive `set_one_led` calls are the concatenation of each call's words |
| Monitor.FramesLength | lib/matriz/matriz.c:31 | each `set_one_led` call pushes exactly 25 words |
| Monitor.DriveAlerts | meteriologicaInterfaceWeb.c:422-482 | the alert block takes the `Evaluate` decision and pushes exactly the frames of the `MatrixWrites` colours |
| Monitor.LoopIteration | meteriologicaInterfaceWeb.c:382-482 | the readings become raw values plus offsets (the last good AHT20 sample when a read fails); settings are unchanged; the decision and the pushed words follow from the new readings |

## Left out

- Wi-Fi bring-up, the lwIP server setup (`start_http_server`, the accept callback), `cyw43_arch_poll` and `sleep_ms` are not modelled. They are platform plumbing, and the loop's timing is not part of any property.
- The sensor drivers (`bmp280_*`, `aht20_*`), I²C and the raw-to-physical conversion are not modelled. The converted BMP280 values and the AHT20 sample are parameters of `Monitor.LoopIteration`.
- The buzzer, the status-LED GPIO writes and `printf` debug output are not modelled. The tone and the LED colour are the `active` and `led` fields of the returned decision.
- The AHT20 failure beep (3000 Hz for 2 s) is not modelled; only its effect on the stored readings is.
- On the first iteration the AHT20 `data` is uninitialised if the read fails. The model takes the previous sample as a parameter.
- PIO initialisation and the blocking FIFO put are not modelled. `set_one_led` returns the words it would push.
- C `float` arithmetic is modelled as exact real arithmetic: rounding, NaN and infinities are not modelled.
- `%.2f` formatting is an abstract function `fixed2`, and the `%f`/`%d` conversions of `sscanf` are abstract scanners. Their character-level behaviour is not modelled: whitespace skipping, signs, exponents, `inf`/`nan`, `int` overflow.
- Http.Handle: responses longer than the 14000-byte buffer, or a JSON report longer than 512 bytes, would be truncated by `snprintf`. The model always holds the whole response, and `len` is its length.
- Http.HttpRecv: the request is the first `pbuf`'s payload, taken as a whole string. Chained `pbuf`s, a payload without a terminating NUL, and an embedded NUL are not modelled.
- Http.HttpRecv: `tcp_write`/`tcp_output` errors and `tcp_recved` window updates are not modelled. Each request on a connection allocates a new exchange, as in the code; the exchange leaked when a peer never acknowledges is not modelled.
- Http.Exchange.Sent: `len` and `sent` are unbounded, where the code uses `size_t`. After the exchange closes its memory is freed, so the method requires an open exchange.
- Interrupt-versus-loop races on the shared globals are not modelled. Each handler and loop iteration runs atomically in the model.
- `configura_Inicializa_Pio` and the HTML page contents are not modelled. The two pages are opaque strings in `Http.Env`.
