# WP6003 air-quality sensor driver, modelled in Dafny

This project models the client-side driver for the WP6003 air-quality
sensor, which talks to the sensor over Bluetooth Low Energy (`wp6003.h`).
The model covers three parts:

- **The connection state machine of `WP6003BLEDevice`.** It has four states:
  `pending`, `connected`, `disconnected` and `error`.
  - The advertisement callback makes a session `pending`.
  - Each `updateSensorData` tick does two things. It connects a pending
    session. It then counts polls on a connected one. When the count passes
    `notificationInterval`, the tick sends a notification request and checks
    the liveness timeout.
- **The telemetry decoder.** A frame is accepted only if byte 0 is `0x0A`.
  Temperature, TVOC, HCHO and CO2 are big-endian 16-bit fields at offsets 6,
  10, 12 and 16.
- **The command frames written to the sensor.**
  - `0xAA` time sync: 7 bytes.
  - `0xAE 01 01` notify interval.
  - `0xAB` notification request.

The Dafny files:

- `protocol.dfy` (module `Protocol`): pure functions for the byte formats,
  with lemmas. These include decode-after-encode for telemetry and for
  commands, and the byte-exact example frames.
- `session.dfy` (module `Session`): the state machine as functions on an
  abstract `SessionState`, and lemmas about runs of polls:
  - disconnected and faulted sessions are fixed points;
  - while frames stay fresh, the poll counter runs modulo
    `notificationInterval + 1`, with one `0xAB` request per completed
    interval;
  - until the counter passes the interval, a connected session stays
    connected whatever the clock says;
  - once frames are stale, a connected session faults on the first poll
    that passes the interval, which comes within
    `notificationInterval + 1` polls.
- `device.dfy` (module `Device`): the source's objects as classes.
  - `WP6003BLEDevice` has the source's fields and methods.
  - `SensorRouting` is the static `remoteSensorToDevice` map. Each
    constructor takes the routing object as a parameter. Callers are meant to
    pass the same object to every session, because the source map is
    static; the model does not enforce this.
  - `WP6003BLEAdvertisedDeviceCallbacks` holds `onResult`.
  - Each method is proved to change the object exactly as the matching
    `Session` function says, and to keep the invariant `Session.Inv`.
    `ConnectToServer` keeps the invariant only when it starts from a pending
    session, which is its only caller's state, so it requires one. The
    invariant says:
    - the counter stays within `0..notificationInterval`;
    - a pending session has an address, so `*pServerAddress` is safe;
    - a connected or faulted session holds a non-null command
      characteristic, so the `0xAB` write in the poll is safe.
- `option.dfy`: the `Option` type.

How the environment is modelled:

- **Radio outcomes are inputs.** A `Link` says whether the service was found
  and which command and sensor characteristic pointers came back. `None`
  stands for a null pointer.
- **Characteristic writes are a log.** `commandWrites` records every frame
  written to the command characteristic, oldest first.
- **Clocks are parameters.** A poll reads three clock values: `time(NULL)` for
  the liveness timestamp taken during a connect, `localtime` for the time-sync
  frame, and `time(NULL)` for the timeout check. Each is a separate parameter,
  because the source reads them at different moments.
- **Readings are integers.** They are fixed point: tenths of °C, thousandths
  of mg/m³, and ppm. The source stores `double`s instead.
- **C conversions are explicit.**
  - `U8` is the cast to a byte: reduction modulo 256.
  - `CRem` is C's truncating `%`.
- **Uninitialised fields stay unconstrained.** The source's constructor never
  sets the readings, `notify_time` or the pointers. The model's constructor
  leaves the same fields unconstrained.

Where the code does less than its names, comments and state names suggest,
the model follows the code:

- **Faulting waits for a counter overflow.** The liveness timeout is checked
  only on a poll where the counter passes the interval. A stale connected
  session therefore faults on the first such poll, which can be up to
  `notificationInterval + 1` polls later, not on the next poll
  (`Session.RunWhileStale`).
- **`error` is not terminal.** A matching advertisement sets `pending` from
  any state, `error` included (`Session.Advertise`).
- **The connect result is ignored.** The code never checks the result of
  `pClient->connect`. A failed connection shows up only as a missing service.
  The first checked step is therefore the service lookup.
- **The poll counter survives reconnects.** `notifyRequest` is not reset when
  a session reconnects, so a fresh connection can overflow the counter in its
  first tick.

## Model

| member | source | states |
|---|---|---|
| `Session.ErrorCode` | wp6003.h:22 | the health code is 0..3, the position of the state in the enum; `StatusOfCode` inverts it |
| `Device.WP6003BLEDevice.GetError` | wp6003.h:211 | the accessor returns a code in 0..3 that decodes back to the current connection state |
| `Device.WP6003BLEDevice.constructor` | wp6003.h:198-204 | a new session is disconnected, with counter 0, notification interval 600 and timeout 1200; it satisfies the invariant, and the fields the source leaves uninitialised are unconstrained |
| `Session.Advertise` | wp6003.h:47-53 | an advertisement with the configured name records its address and sets pending, from any state; any other advertisement changes nothing; only status and address can change; the invariant is kept |
| `Device.WP6003BLEAdvertisedDeviceCallbacks.OnResult` | wp6003.h:43-55 | the callback changes the bound session exactly as `Advertise` says and keeps its invariant |
| `Device.WP6003BLEAdvertisedDeviceCallbacks.constructor` | wp6003.h:35-38 | the callback object is bound to the given session |
| `Protocol.Be16` | wp6003.h:100-103 | a big-endian field is below 65536, and its high and low bytes are recovered by division and remainder by 256 |
| `Protocol.DecodeTelemetry` | wp6003.h:96-103 | a frame is accepted exactly when byte 0 is 0x0A; an accepted frame gives a reading whose four values are in 0..65535 and are the big-endian values of bytes 6-7, 10-11, 12-13 and 16-17 |
| `Protocol.DecodeEncodeTelemetry` | wp6003.h:100-103 | every reading in range is recovered from the frame that carries it |
| `Protocol.DecodeDependsOnlyOnFields` | wp6003.h:96-103 | two frames that agree on the tag and the four fields decode to the same result; no other byte matters |
| `Protocol.DecodeExample` | wp6003.h:100-103 | temperature bytes {0,250} decode to 250 tenths (25.0 °C) and CO2 bytes {3,0xE8} to 1000 ppm |
| `Session.Notify` | wp6003.h:96-112 | a frame without the 0x0A tag, of any non-zero length, leaves the whole state unchanged; an accepted frame sets the reading to the decoded one and the liveness timestamp to `now`, and changes nothing else; the invariant is kept |
| `Device.WP6003BLEDevice.OnNotification` | wp6003.h:85-113 | the member callback changes the session exactly as `Notify` says and keeps its invariant |
| `Device.SensorRouting.NotifyCallback` | wp6003.h:118-124 | the static callback delivers the frame to the session registered for the characteristic, with the effect of `Notify` |
| `Device.SensorRouting.constructor` | wp6003.h:270 | the process-wide routing map starts empty |
| `Protocol.U8` | wp6003.h:177-178 | the byte cast is congruent to its argument modulo 256 and is the identity on 0..255 |
| `Protocol.CRem` | wp6003.h:177 | C's `%` truncates: it has the sign of the dividend, its magnitude is below the divisor, and it pairs with the truncated quotient |
| `Protocol.EncodeCommand` | wp6003.h:177-190 | each command frame starts with its tag (0xAA, 0xAE, 0xAB) and has length 7, 3 or 1 |
| `Protocol.DecodeEncodeCommand` | wp6003.h:177-190 | the sensor's reading of a command frame recovers the command |
| `Protocol.EncodeDecodeCommand` | wp6003.h:177-190 | every frame the sensor reads as a command is exactly that command's encoding |
| `Protocol.TimeSyncOf` | wp6003.h:174-179 | for a normalised local time, the time-sync fields are the two-digit calendar year, the month counted from 1, and day, hour, minute and second unchanged, each within its calendar range |
| `Protocol.TimeSyncFrame` | wp6003.h:177-180 | the time-sync frame is 7 bytes, tagged 0xAA, and decodes to the time-sync command for that time |
| `Protocol.CommandFrameExamples` | wp6003.h:177-189 | 2024-03-05 14:07:22 (`tm_year` 124, `tm_mon` 2) gives {0xAA,24,3,5,14,7,22}; the interval frame is {0xAE,1,1} and the request frame is {0xAB} |
| `Session.Connect` | wp6003.h:139-193 | the attempt succeeds exactly when service, command and sensor characteristic are all present; each lookup that ran stores its pointer even when a later one fails; on success the liveness timestamp is `now` and the writes are the time-sync, interval and request frames in order; on failure nothing is written; nothing else changes |
| `Session.Register` | wp6003.h:150-152 | an attempt that reaches the sensor lookup maps the returned pointer, null included, to the session; no entry is removed and no other entry changes |
| `Device.WP6003BLEDevice.ConnectToServer` | wp6003.h:130-194 | the method's result and new state are those of `Connect`; the routing map becomes the one `Register` gives; started from a pending session, it keeps the invariant |
| `Session.ConnectedPoll` | wp6003.h:246-261 | a connected poll adds one to the counter; when the count passes the interval it resets the counter and writes one 0xAB frame; the state becomes error exactly when the count passed and `now > notify_time + timeoutInterval`, and otherwise stays connected; the invariant is kept |
| `Session.Poll` | wp6003.h:234-266 | disconnected and error sessions are unchanged; a pending session connects and becomes disconnected on failure, or connected and then polled on success; a connected session is polled; no tick leaves a session pending; the invariant is kept |
| `Device.WP6003BLEDevice.UpdateSensorData` | wp6003.h:234-266 | the tick changes the session exactly as `Poll` says and keeps the invariant; the routing map changes only when a pending session connects |
| `Session.RunFromIdle` | wp6003.h:236-246 | any run of polls leaves a disconnected or faulted session exactly as it is |
| `Session.RunWhileFresh` | wp6003.h:246-261 | while no poll finds the last frame older than the timeout, a connected session stays connected; after k polls its counter is (counter + k) mod (interval + 1); one 0xAB request has been written per completed interval |
| `Session.RunBeforeOverflow` | wp6003.h:246-252 | for as many polls as the counter can still grow without passing the interval, a connected session stays connected whatever the clock says; its counter counts the polls and nothing is written |
| `Session.RunWhileStale` | wp6003.h:246-261 | when every poll finds the last frame older than the timeout, a connected session is faulted after more than interval − counter polls |

## Left out

- Bluetooth stack calls are not modelled: `BLEDevice::init`, scanning and stopping the scan, `createClient`, `connect`, `getService`, `getCharacteristic`, `registerForNotify`, `writeValue`, `clearResults`. They are foreign library calls. Their outcomes are the `Link` input, and their writes are the `commandWrites` log.
- `setupBLEConnection` is not modelled: it only configures and starts the radio scan.
- The `delay(...)` calls, `time(NULL)` and `localtime` are not modelled: they are environment calls. The clock values are parameters.
- Logging (`ESP_LOGD`) is not modelled: it is output only.
- The readings are integers in fixed point, not `double`s. The divisions by 10.0 and 1000.0 are not modelled.
- The getters `getTemp`, `getTvoc`, `getHcho` and `getCo2` are not modelled as members: each only returns a field, which the model exposes directly.
- The host component `WP6003` is not modelled (`PollingComponent`, `publish_state`, `Serial.begin`): it is framework glue with no logic.
- Concurrency is not modelled: the source has an unsynchronised race between the callbacks and the poll.
- The disabled `#if 0` block that sends the `0xEE` command is not modelled: it is dead code.
- Memory is not modelled: the heap-allocated `BLEAddress` that is never freed, and the callback object that is never freed.
- Integer widths are not modelled. `notifyRequest` never exceeds `notificationInterval + 1`, so it cannot overflow. `notify_time + timeoutInterval` holds a clock reading, and the model assumes that the clock stays at least `timeoutInterval` below the largest `time_t`. With a 32-bit `time_t`, that fails once `time(NULL)` passes 2^31 − 1201. Clock values are unbounded integers.
- `Protocol.DecodeTelemetry` requires a frame of at least 18 bytes. The notification callbacks (`Session.Notify`, `OnNotification`, `NotifyCallback`) accept a frame of any non-zero length whose byte 0 is not the tag, as the source does: it reads only byte 0 of such a frame. They require 18 bytes only for a tagged frame, because the source never checks the length and would read past the end of a shorter tagged frame.
- `Device.SensorRouting.NotifyCallback` requires the characteristic to be in the routing map. The source's `operator[]` would insert a null entry for an unknown characteristic and then dereference it. The radio only calls back for characteristics subscribed after registration.
