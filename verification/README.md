# Ice-boat race server core, modelled in Dafny

This project models the sequential logic of a small multiplayer ice-boat
sailing game:

- the **race-mark tracker** (`sailmark.py`): a mark's line and band forms, the
  per-contestant `MarkState`, and the crossing rule of `RaceMark.update`;
- the **start-box pool** (`startboxes.py`): a first-in-first-out list of free
  boxes and a map from craft id to the box that craft holds;
- the **wire frames** and the **client dispatch** (`communicator.py`): every
  frame is a one-letter tag, a decimal index and `:`-separated fields, and
  `_getOtherData` applies each inbound frame to the client's view of the race;
- the **server session** (`server.py`): the handshake, the life counter and
  the registry of connections, the per-frame pipeline (store, forward, start
  box, race marks, wind) and the teardown, plus the reading of the
  configuration's object, obstruction and mark sections.

Everything is immutable data and pure functions. Each `await` of the server's
handler is folded into one atomic step (`Admit`, `Seat`, `OnFrame`,
`Teardown`). A step returns the new shared state, the sends it makes, and
how the handler loop ends. Sends are `To(connection, frame)` or
`Fanout(connections, frame)`. `Delivered(out, c)` is what connection `c`
receives from a run of sends, in order.

Foreign code becomes parameters:

- `Codec` holds base64 over float32 packing (`pack`/`unpack`) and Python's
  `float()` on text (`number`). A payload is opaque text. It holds no `:`
  because the base64 alphabet of section 4 of RFC 4648 has none.
- The cosine and sine of a mark's radial are inputs (`heading` when reading
  the configuration). So are the cosine and sine of half the start heading
  (`Layout.qw`, `Layout.qz`).
- The elapsed-time text of a rounding or finish event is an input (`rtime`).
- The wind payload is an input of `Server.Tick`.

Python's own semantics are written out where the core relies on them:

- `bytes.split(b':')` is `Wire.Split`.
- `int()` on bytes is `Wire.ParseInt`: surrounding ASCII whitespace, a
  sign, and ASCII digits with single underscores. The configuration's score
  is a `str`, where Python also accepts other Unicode digits (see
  `Setup.ScoreOf` under Left out).
- The decimal rendering of an f-string is `Wire.Decimal`.
- The `defaultdict(lambda: 0.0)` of mark readings is `SailMark.Stored`.
- numpy broadcasting:
  - A one-value position is broadcast by the start-box check, and an empty
    one raises there.
  - A one-value wind frame sets both components.
  - Race marks index `pos[0]` and `pos[1]`.
- The client's wind is a numpy integer array, because the game creates it
  from integers. Each value written into it is truncated toward zero
  (`Communicator.Trunc`).
- Adding the score `'finish'` of an avoid mark to the penalty is Python's
  TypeError (`SailMark.ScoreFault`).

A frame's fate in the server follows the code:

- A first frame that is not `B<ascii name>` is refused with no state
  change, because the `finally` block then fails on the unset `index`.
- A duplicate start-box assignment (`ValueError`) ends the handler before
  registration. Its teardown then fails on `del`, so nothing else changes.
- A frame that is not `D` is stored and forwarded whatever its tag. The
  `ConnectionError` at server.py:175 is built but never raised.

## Model

| member | source | states |
|---|---|---|
| Wire.Split | server.py:192 | `bytes.split(b':')` yields at least one field, no field holds `:`, and joining the fields with `:` gives the input back |
| Wire.SplitJoin | communicator.py:112 | splitting fields joined by `:` gives the same fields back when none holds `:` |
| Wire.ParseDecimal | communicator.py:132 | `int()` reads the decimal text of every integer, negative ones included, back as that integer |
| SailMark.RoundingOf | sailmark.py:90-98 | only the texts `ccw`, `near` and `no` select those roundings; every other text behaves as clockwise |
| SailMark.NewMark | sailmark.py:87-105 | the mark point lies on its own line; `area2` reads `distance` there; `area1` reads `distance` for a `near` mark and 0 otherwise; the configured fields are kept |
| SailMark.CcwNegatesLine | sailmark.py:88-93 | a `ccw` mark's signed distance is the exact negation of the same mark's distance under any other rounding, and its band is the clockwise band |
| SailMark.MarkFrame | sailmark.py:88-99 | for a unit heading, a point `t` along and `h` across the radial reads `h` on the line (`-h` for `ccw`) and is in band exactly when `0 < t < distance` (`-distance < t < distance` for `near`) |
| SailMark.Start | sailmark.py:43-46 | restarting puts the contestant before the first mark with no penalty and keeps the readings |
| SailMark.NewState | sailmark.py:21-46 | a fresh state has index -1, penalty 0 and every stored reading 0.0 |
| SailMark.Update | sailmark.py:109-189 | the passed index stays or rises by one onto this mark. An ordered mark skips an exact zero, an off-band position or an out-of-turn mark with nothing changed. Its first eligible reading is stored silently. It raises an event exactly on a stored-negative to new-positive crossing: finish with the penalty kept, or rounding with the score added. An avoid mark stores its first reading and auto-advances the index. It charges its score exactly on an in-band sign flip, where a `finish` score is the TypeError. It overwrites a reading only when the new one is not 0. Other marks' readings never change, and the penalty falls only through a negative score |
| Course.PassFrom | server.py:200-203 | showing a position to the marks from index `i` on yields events naming those marks in strictly increasing order. Progress events lie above the old passed index and up to the new one. The penalty grows by exactly the events' charges. A fault happens only at an avoid mark scored `finish` |
| Course.PassAll | sailmark.py:236-239 | one position shown to every mark in list order: the same guarantees from the first mark on |
| Course.RaceInOrder | sailmark.py:236-239 | over a whole track, the rounding and finish events name marks in strictly increasing order, above the starting index and up to the final one: no mark is credited twice or out of order |
| Course.RaceCharges | sailmark.py:154-186 | over a whole track the penalty total grows by exactly the charges of the events sent |
| StartBoxes.NewPool | startboxes.py:79-114 | every configured box is free, in construction order; box `i` sits at `(x0+i*dx0, y0+i*dy0, z0)`; its squared release radius is a quarter of `dx0^2+dy0^2`; none is taken |
| StartBoxes.Reserve | startboxes.py:40-53 | the start record is the box centre followed by its heading quaternion |
| StartBoxes.Assign | startboxes.py:116-138 | a craft already holding a box is a duplicate, checked before capacity; with no free box the result is the capacity error; otherwise the first free box goes to the craft, the other holdings stay, and the box's start record is returned |
| StartBoxes.Update | startboxes.py:140-162 | nothing changes for a craft with no box or one still inside its release circle; otherwise the box leaves `taken` and goes to the end of the free list |
| StartBoxes.Left | startboxes.py:164-170 | a held box goes back to the end of the free list whatever the position; a craft with no box changes nothing |
| StartBoxes.AssignValid | startboxes.py:130-138 | a successful assignment keeps every box free or held exactly once, with the counts adding up to the configured number |
| StartBoxes.ReleaseValid | startboxes.py:159-170 | giving a box back keeps the same conservation invariant |
| StartBoxes.RunValid | startboxes.py:116-170 | any sequence of assign, update and left calls keeps the invariant, so no more boxes are ever held than configured |
| Scenarios.StartBoxDemo | startboxes.py:172-193 | the demonstration run: three assignments succeed at the expected positions, a repeat is a duplicate, a fourth craft finds no box, a move to (50, 0) frees box 0 for reuse, and a given-up box goes to craft 16 |
| Communicator.OnUpdate | communicator.py:111-128 | an update frame changes only the proxy map and never the set of known crafts |
| Communicator.Dispatch | communicator.py:101-194 | only an unknown tag gives the unknown-tag error; each tag writes only its own part of the client; only births and deaths change which crafts are known; the client's own index never changes |
| Communicator.DrainConcat | communicator.py:101-199 | draining two batches one after the other is draining them together, because a failing frame is dropped and the loop goes on |
| Communicator.DrainSkipsUnknownTag | communicator.py:193-199 | a frame with an unknown tag is skipped without a trace and the drain continues |
| Communicator.DrainKeepsCrafts | communicator.py:101-194 | a drain of frames that are neither births nor deaths keeps the set of known crafts and the own index |
| Communicator.Tick | communicator.py:303-321 | the frame sent each tick is an update that reads back as this client's index and the payload intact; the frames received never change the client's own index, and without births or deaths they keep the set of known crafts |
| Communicator.ParseWelcome | communicator.py:216-230 | a reply not starting with `W` is refused; an accepted reply's index is the integer before the first `:`, and its start position has three values |
| Communicator.UpdateFrameIndex | communicator.py:318-319 | the integer before the first `:` of an update frame is the sender's index, whatever the payload |
| Communicator.UpdateRoundTrip | communicator.py:111-128 | an update from a known craft replaces that proxy's pose wholesale with the fifteen floats split into position, quaternion, velocities, rudder and sail; an unknown craft's update is dropped |
| Communicator.WelcomeRoundTrip | communicator.py:216-230 | the welcome the server builds yields the allocated index and the packed start position and quaternion |
| Communicator.BirthRoundTrip | communicator.py:137-142 | a birth notice for a colon-free ASCII name creates or replaces exactly the proxy it names |
| Communicator.DeathRoundTrip | communicator.py:131-134 | a death notice removes exactly the proxy it names; for an unknown index it is dropped |
| Communicator.Trunc | communicator.py:149 | storing a float into the client's integer wind array gives the integer on the zero side of the value, less than 1 away from it |
| Communicator.WindRoundTrip | communicator.py:145-149 | a two-value wind frame overwrites the first two wind components with the values truncated toward zero, so whole values come through exactly, and keeps the third |
| Communicator.EventRoundTrip | communicator.py:185-191 | a race event frame built by a mark is logged as its subtype letter, mark index and value |
| Communicator.ObjectRoundTrip | communicator.py:152-159 | the static-object frame the server builds from a colon-free ASCII name and packed numbers is recorded as exactly that name and those numbers |
| Communicator.ObstructionRoundTrip | communicator.py:162-169 | the obstruction frame the server builds is recorded as exactly its name, geometry and packed numbers |
| Communicator.MarkRoundTrip | communicator.py:172-182 | a mark announcement is listed with the character after `M` (the first digit of the mark's index, or `-`), the name, the info and the position, when name and info hold no `:` |
| Server.NewServer | server.py:253-271 | a new server has no player, counter and clock at zero, and the given configuration, marks and pool |
| Server.Tick | server.py:235-251 | the wind clock advances by one with a new wind payload and nothing else changes |
| Server.Remove | server.py:216 | deregistration keeps every other entry and removes exactly the leaving connection |
| Server.RemoveDistinct | server.py:216 | deregistration keeps connections and indices pairwise distinct |
| Server.Admit | server.py:101-111 | a first frame is admitted exactly when it starts with `B` and the name is ASCII; the craft gets the counter's value, the counter moves on by one, and nothing else changes |
| Server.HelloAdmitted | server.py:102-106 | a client's hello is admitted exactly when its name is ASCII, under that name |
| Server.Announceable | server.py:154-156 | the count of leading marks whose announcement encodes as ASCII; the next one's does not |
| Server.Seat | server.py:113-162 | an index that already holds a box clashes; with no free box the handler waits. Otherwise the craft is registered with its birth notice, takes the first free box and gets a fresh mark state. It is sent the greeting, and its loop runs exactly when every mark announcement encodes |
| Server.GreetDelivered | server.py:127-156 | the newcomer receives the welcome, the configuration, the earlier births and the mark announcements, in that order; each registered player receives only the newcomer's birth; nobody else receives anything |
| Server.GreetingDeliveries | server.py:127-156 | the handshake's actual sends deliver as above |
| Server.Position | server.py:190-194 | the position is at most two floats from the second `:` field; it is missing exactly when that field is absent or does not decode |
| Server.UpdatePosition | server.py:190-194 | for any update frame packing at least two floats, such as the client's fifteen-float pose, the server reads the first two as the position |
| Server.BoxCheck | server.py:198 | the start-box check raises only for an empty position while the craft holds a box; a one-value position is broadcast; it only ever frees boxes |
| Server.Judge | server.py:200-203 | with no marks the race state is untouched, there are no events and the position need not hold two values; otherwise the passed index never falls, the penalty grows by exactly the events' charges, and every event names a configured mark |
| Server.Respond | server.py:197-210 | every send of a position's answer goes to the sender and is a race event or the wind. A running loop has sent the wind exactly when the clock moved since the last wind. Without two floats, marks present or a wind to log mean the handler faults |
| Server.OnFrame | server.py:165-210 | a `D` frame ends the loop and changes nothing. Any other frame becomes the craft's latest whatever its tag, and an undecodable one faults. Registry, counter, clock, configuration and marks are kept, boxes are only freed, and the passed mark index never falls |
| Server.FrameDeliveries | server.py:174-187 | a frame other than `D` reaches every other registered connection exactly once, nobody unregistered, and the sender gets only race events and the wind |
| Server.WindOnce | server.py:205-207 | within one clock step the wind is sent to a connection at most once |
| Server.WindAfterTick | server.py:205-207 | after a clock step, the next frame that keeps the loop running carries the new wind |
| Server.TeardownAsWritten | server.py:214-225 | an unregistered connection changes nothing. A registered one is removed. The others get its death notice, or the counter returns to 0 when nobody is left. The start box is not given back |
| Server.Teardown | server.py:214-225 | the same teardown with the leaving craft's start box given back |
| Server.TeardownDeliveries | server.py:216-221 | the death notice reaches every remaining player once and nobody else |
| Server.JoinSound | server.py:110-162 | a craft seated in the step that admitted it keeps registered connections and indices distinct and below the counter; the session owns its registration, and a tidy server stays tidy |
| Server.FrameSound | server.py:165-210 | an update step keeps the registry sound, tidy and owned |
| Server.TeardownAsWrittenSound | server.py:214-225 | the teardown as written keeps the registry sound, because the counter resets only when nobody is registered |
| Server.TeardownTidy | server.py:214-225 | the corrected teardown keeps every held start box owned by a registered craft |
| Server.TidyNoClash | server.py:110-120 | in a tidy server a craft seated in the step that admitted it never clashes over a start box |
| Setup.GetFloat | server.py:326 | an absent setting is the fallback; a present one is its number, or an error when it does not read as one |
| Setup.Triple | server.py:341-344 | a size or orientation setting must be exactly three comma-separated numbers |
| Setup.ScoreOf | server.py:363-368 | an absent score is 0; an integer text is that integer; otherwise only the text `finish` is accepted and anything else stops the server |
| Setup.ScoreRoundTrip | server.py:363-368 | a score written as an integer or as `finish` reads back as itself |
| Setup.ObjectEntry | server.py:325-334 | an object section becomes an `L<name>:` frame with four packed numbers, and its name must be ASCII |
| Setup.ObstructionEntry | server.py:336-353 | an obstruction section becomes an `O<name>:<geom>:` frame with nine packed numbers. It is skipped when the geometry is missing or not sphere, capsule, cylinder or box, which is checked only after every number is read |
| Setup.MarkEntry | server.py:355-371 | a mark section becomes a race mark with its name, info, rounding and score. The mark stands at the configured `x`, `y` (default 0) on its own line, with the configured `distance` (default 100), and its band runs along the configured `radial` (default 0). The section is refused exactly when one of those numbers or the score does not read |
| Setup.MarkSectionDefaults | server.py:355-371 | a mark section that sets only its position becomes the mark named after the section, with radial 0, distance 100, clockwise rounding, score 0 and the stock info text |
| Setup.Read | server.py:324-371 | a section only ever appends. An object section adds exactly one frame and no mark. An obstruction section adds at most one frame and no mark. A mark section adds exactly one mark and no frame. Any other section changes nothing |
| Setup.ReadAll | server.py:324-371 | reading the sections in order only appends, at most one item per section |
| Setup.ReadAllConcat | server.py:324-371 | reading a file in two parts is reading the first part and going on from its result, the first error stopping everything |
| Setup.BadScoreStops | server.py:363-368 | a mark section with a bad score stops the server from starting, wherever it sits in the file |
| Scenarios.LoneDepartureClashesAsWritten | server.py:214-225 | as written, when the only craft leaves while holding box 0, the next craft gets index 0 again and clashes over that box |
| Scenarios.ReconnectScenario | server.py:110-120 | with one start box: a craft joins and leaves at once, and as written the next craft clashes; with the box given back it is seated |
| Scenarios.CloseFrameNamesNoCraft | communicator.py:236 | the close frame as written is the same text for every craft, and its index field does not read as an integer |
| Scenarios.CloseFrameNamesCraft | communicator.py:236 | the intended close frame reads back as the sender's index, so distinct crafts send distinct frames |
| Scenarios.CloseFrameEndsLoop | server.py:169-172 | either close frame ends the server's loop for that craft, since the server reads only the tag |

## Left out

- Concurrency: the asyncio interleaving of handlers between `await`s is not modelled. For example, another handler can run between sending a birth and registering. Each step is atomic.
- The retry of a start-box assignment after a 2-second sleep is the `Waiting` outcome of `Server.Seat`. The caller decides when to try again.
- Server.JoinSound: covers a craft seated in the step that admitted it. A waiting craft keeps the index it was given but is not registered. If the registry empties meanwhile, the counter returns to 0 and may hand that index out again, or the retry may be seated with an index at or above the counter. Soundness across a stale retry is not promised.
- Server.TidyNoClash: covers a craft seated in the step that admitted it. A waiting craft whose index was handed out again after a counter reset can clash on its retry even with the corrected `Server.Teardown`.
- Logging, printing, plotting, the per-craft track log (`clog`) and its JSON file are left out. The JSON dump can raise in the teardown of a handler that faulted before its log was created. That happens after every state change, so nothing is lost by leaving it out.
- base64, float32 packing and `float()` are the `Codec` parameter. Floating point is not modelled: positions, the mark coefficients of `SailMark.NewMark`, the sign and band tests of `SailMark.Update` and the squared-distance test of `StartBoxes.Leaves` are exact real arithmetic, so a reading within rounding distance of 0 or of a band edge can come out differently in the program.
- Trigonometry is left out: the cosine and sine of the radial and of the half start heading are inputs.
- The wind model (`windmodel.py`) is a random process. It is replaced by the payload passed to `Server.Tick`.
- The clock is left out. The elapsed time is the `rtime` text passed in. `Course.Race` uses one `rtime` for every position of a track.
- Network set-up and the reading of the `wind`, `network` and `start` sections are left out. The start-box layout is a parameter.
- The client's close, `__del__` and `_ioCycle` scheduling are left out. Only the close frame's text is modelled.
- The client-side effects (`follow`, `newOtherCraft`, `newObstacle`, `newStaticObject`) are recorded as data in `Communicator.Client`. The game engine is not part of this model.
- `hud.py`, `iceboat.py`, `odegrid.py` and the test scripts are not part of this model.
- Setup.ObjectEntry: states that the frame packs some four numbers read from the section, not which ones.
- Setup.ObstructionEntry: states that the frame packs some nine numbers, not which ones.
- Setup.ScoreOf: reads the score with the rules `int()` applies to bytes. A score written with non-ASCII decimal digits or non-ASCII whitespace, which `int()` on a `str` accepts at server.py:365, is refused here, because Python's Unicode digit and space tables are not part of this model.
- Communicator.Trunc: a wind value beyond the 64-bit integer range, where numpy's cast has no defined result, is truncated as an unbounded integer.

## Findings

| source | as written | input that shows it | evidently intended | confidence | as-written member | corrected member |
|---|---|---|---|---|---|---|
| server.py:214-225 | The teardown never calls `StartBoxes.left`, and it resets the life counter to 0 when the registry empties. | One start box. Craft "a" joins as index 0 and sends `D` before leaving its box. Craft "b" then joins, gets index 0 again, and `assign(0)` raises the duplicate error. | A departing craft gives its start box back, so a craft seated in the step that admitted it never clashes, even on an index handed out again. | high, not executed | Scenarios.LoneDepartureClashesAsWritten | Server.TeardownTidy |
| communicator.py:236 | The close frame is the literal text `D{self.idx}`, because the `f` prefix is missing. | A craft with index 3 sends `D{self.idx}`, and the text after `D` does not read as an integer. | `D<idx>`, the craft's own death notice. | high, not executed | Scenarios.CloseFrameNamesNoCraft | Scenarios.CloseFrameNamesCraft |

For the first finding:

- `Scenarios.ReconnectScenario` runs the concrete input through both teardowns.
- `Server.TidyNoClash` shows that in a tidy server a craft seated in the step that admitted it never clashes. A craft that waited is not covered (see Left out). `Server.TeardownTidy` shows that the corrected `Server.Teardown` keeps the server tidy.
- `Server.TeardownDeliveries` is stated about the corrected teardown.

The second finding does not reach the server, which ends the loop on the tag alone (`Scenarios.CloseFrameEndsLoop`).
