/** The relay server of server.py: one handler per connection runs the
    handshake, then the update loop, then the teardown; all handlers share
    the life counter, the registry of connected players, the start-box pool
    and the latest frame per craft.

    Each step of a handler is modelled as one atomic function from the
    shared state to the shared state plus the frames it sends. A connection
    is named by a `ConnId`. */
module Server {
  import opened Wrappers
  import opened Wire
  import opened Frames
  import SailMark
  import StartBoxes
  import Course

  type ConnId = nat

  /** A send: one frame to one connection, or one frame to a set of
      connections at once (the `asyncio.wait` over `send`s). */
  datatype Out = To(conn: ConnId, frame: string) | Fanout(conns: set<ConnId>, frame: string)

  /** The frames one send hands to connection `c`. */
  function Hit(o: Out, c: ConnId): seq<string> {
    match o
    case To(d, f) => if d == c then [f] else []
    case Fanout(cs, f) => if c in cs then [f] else []
  }

  /** Everything connection `c` receives from a run of sends, in order. */
  function Delivered(out: seq<Out>, c: ConnId): seq<string>
    decreases |out|
  {
    if |out| == 0 then [] else Delivered(out[..|out| - 1], c) + Hit(out[|out| - 1], c)
  }

  lemma {:induction false} DeliveredAppend(a: seq<Out>, b: seq<Out>, c: ConnId)
    ensures Delivered(a + b, c) == Delivered(a, c) + Delivered(b, c)
    decreases |b|
  {
    if |b| == 0 {
      assert a + b == a;
    } else {
      assert (a + b)[..|a + b| - 1] == a + b[..|b| - 1];
      DeliveredAppend(a, b[..|b| - 1], c);
    }
  }

  /** `for d in frames: await websocket.send(d)`. */
  function Sends(conn: ConnId, frames: seq<string>): seq<Out>
    decreases |frames|
  {
    if |frames| == 0 then [] else Sends(conn, frames[..|frames| - 1]) + [To(conn, frames[|frames| - 1])]
  }

  /** A run of sends to one connection reaches that connection, in order,
      and no other. */
  lemma {:induction false} SendsDelivered(conn: ConnId, frames: seq<string>, c: ConnId)
    ensures c == conn ==> Delivered(Sends(conn, frames), c) == frames
    ensures c != conn ==> Delivered(Sends(conn, frames), c) == []
    decreases |frames|
  {
    if |frames| > 0 {
      var front := frames[..|frames| - 1];
      SendsDelivered(conn, front, c);
      SendsStep(conn, front, frames[|frames| - 1], c);
      Snoc(frames);
    }
  }

  /** One more send to `conn` adds its frame to what `conn` receives. */
  lemma SendsStep(conn: ConnId, front: seq<string>, last: string, c: ConnId)
    ensures Delivered(Sends(conn, front + [last]), c)
      == Delivered(Sends(conn, front), c) + (if c == conn then [last] else [])
  {
    var fs := front + [last];
    assert fs[..|fs| - 1] == front;
    DeliveredAppend(Sends(conn, front), [To(conn, last)], c);
    SingleDelivered(To(conn, last), c);
  }

  lemma Snoc<T>(s: seq<T>)
    requires |s| > 0
    ensures s[..|s| - 1] + [s[|s| - 1]] == s
  {
  }

  lemma SingleDelivered(o: Out, c: ConnId)
    ensures Delivered([o], c) == Hit(o, c)
  {
    assert [o][..0] == [];
    assert Delivered([o][..0], c) == [];
  }

  lemma FanoutDelivered(cs: set<ConnId>, f: string, c: ConnId)
    ensures Delivered([Fanout(cs, f)], c) == if c in cs then [f] else []
  {
    SingleDelivered(Fanout(cs, f), c);
  }

  // ---------------------------------------------------------------------
  // Registry: all_connected
  // ---------------------------------------------------------------------

  /** One entry of `all_connected`: the connection, its craft index and its
      birth frame 'B<index>:<name>'. Entries stay in registration order,
      as the dictionary keeps them. */
  datatype Entry = Entry(conn: ConnId, index: int, birth: string)

  function Conns(reg: seq<Entry>): set<ConnId> {
    set e | e in reg :: e.conn
  }

  function Indices(reg: seq<Entry>): set<int> {
    set e | e in reg :: e.index
  }

  /** The birth frames of the registry, in registration order. */
  function Births(reg: seq<Entry>): seq<string> {
    seq(|reg|, i requires 0 <= i < |reg| => reg[i].birth)
  }

  /** `del all_connected[websocket]`: every other entry stays, in order. */
  function Remove(reg: seq<Entry>, c: ConnId): (r: seq<Entry>)
    ensures forall e :: e in r <==> e in reg && e.conn != c
    ensures Conns(r) == Conns(reg) - {c}
    ensures |r| <= |reg|
    decreases |reg|
  {
    if |reg| == 0 then []
    else
      var rest := Remove(reg[1..], c);
      assert forall e :: e in reg <==> e == reg[0] || e in reg[1..];
      if reg[0].conn == c then rest else [reg[0]] + rest
  }

  /** No connection and no craft index is registered twice. */
  ghost predicate Distinct(reg: seq<Entry>) {
    forall a, b :: 0 <= a < b < |reg| ==> reg[a].conn != reg[b].conn && reg[a].index != reg[b].index
  }

  lemma {:induction false} RemoveDistinct(reg: seq<Entry>, c: ConnId)
    requires Distinct(reg)
    ensures Distinct(Remove(reg, c))
    decreases |reg|
  {
    if |reg| > 0 {
      TailDistinct(reg);
      RemoveDistinct(reg[1..], c);
      if reg[0].conn != c {
        var rest := Remove(reg[1..], c);
        forall e | e in rest
          ensures e.conn != reg[0].conn && e.index != reg[0].index
        {
          var k :| 0 <= k < |reg[1..]| && reg[1..][k] == e;
          assert reg[k + 1] == e;
        }
        ConsDistinct(reg[0], rest);
      }
    }
  }

  lemma TailDistinct(reg: seq<Entry>)
    requires |reg| > 0 && Distinct(reg)
    ensures Distinct(reg[1..])
  {
    forall a, b | 0 <= a < b < |reg[1..]|
      ensures reg[1..][a].conn != reg[1..][b].conn && reg[1..][a].index != reg[1..][b].index
    {
      assert reg[1..][a] == reg[a + 1] && reg[1..][b] == reg[b + 1];
    }
  }

  lemma ConsDistinct(x: Entry, rest: seq<Entry>)
    requires Distinct(rest)
    requires forall e :: e in rest ==> e.conn != x.conn && e.index != x.index
    ensures Distinct([x] + rest)
  {
    var r := [x] + rest;
    forall a, b | 0 <= a < b < |r|
      ensures r[a].conn != r[b].conn && r[a].index != r[b].index
    {
      assert r[b] == rest[b - 1] && rest[b - 1] in rest;
      if a > 0 {
        assert r[a] == rest[a - 1];
      }
    }
  }

  /** In a registry without repeated connections, the entry of the
      connection being removed is the only one that goes. */
  lemma RemoveIndices(reg: seq<Entry>, c: ConnId, index: int)
    requires forall e :: e in reg && e.conn == c ==> e.index == index
    ensures Indices(reg) - {index} <= Indices(Remove(reg, c))
  {
    forall k | k in Indices(reg) - {index}
      ensures k in Indices(Remove(reg, c))
    {
      var e :| e in reg && e.index == k;
      assert e in Remove(reg, c);
    }
  }

  // ---------------------------------------------------------------------
  // Shared state
  // ---------------------------------------------------------------------

  /** The `Server` object: the life counter, the registry, the start boxes,
      the latest frame per craft (`clist`), the wind clock `seconds` with
      the current wind payload, and the configuration frames and race marks
      every newcomer is sent. */
  datatype Server = Server(
    counter: int,
    registry: seq<Entry>,
    boxes: StartBoxes.Pool,
    latest: map<int, string>,
    seconds: int,
    wind: string,
    config: seq<string>,
    marks: seq<SailMark.RaceMark>)

  /** `Server.__init__`: no player yet, counter and clock at zero. */
  function NewServer(config: seq<string>, marks: seq<SailMark.RaceMark>,
                     boxes: StartBoxes.Pool, wind: string): (srv: Server)
    ensures srv.counter == 0 && srv.registry == [] && srv.latest == map[] && srv.seconds == 0
    ensures srv.config == config && srv.marks == marks && srv.boxes == boxes && srv.wind == wind
  {
    Server(0, [], boxes, map[], 0, wind, config, marks)
  }

  /** `_update_wind`: the clock advances one step and the wind model (not
      part of this model) yields a new payload. */
  function Tick(srv: Server, wind: string): (r: Server)
    ensures r.seconds == srv.seconds + 1 && r.wind == wind
    ensures r.(seconds := srv.seconds, wind := srv.wind) == srv
  {
    srv.(seconds := srv.seconds + 1, wind := wind)
  }

  /** One handler's local state: its connection, craft index and name, the
      craft's race progress, and the wind clock value last sent. */
  datatype Session = Session(conn: ConnId, index: int, name: string,
                             race: SailMark.MarkState, seen: int)

  /** How a handler's loop stops: not at all yet, on a 'D' frame, or on an
      exception (which still runs the teardown). */
  datatype Exit = Running | Departed | Faulted

  // ---------------------------------------------------------------------
  // Handshake
  // ---------------------------------------------------------------------

  /** The first frame's verdict: refused, or a craft index and name. */
  datatype Admission = Refused | Admitted(srv: Server, index: int, name: string)

  /** First step of `_communicate`: the frame must start with 'B' and the
      name must be ASCII; the craft gets the counter's value as its index
      and the counter moves on. A refused frame changes nothing: the
      teardown then fails on the unset index before touching the state. */
  function Admit(srv: Server, first: string): (r: Admission)
    ensures r.Admitted? <==> |first| > 0 && first[0] == 'B' && IsAscii(first[1..])
    ensures r.Admitted? ==>
      && r.index == srv.counter
      && r.srv.counter == srv.counter + 1
      && r.srv.(counter := srv.counter) == srv
      && HelloFrame(r.name) == first
  {
    if |first| > 0 && first[0] == 'B' && IsAscii(first[1..]) then
      assert HelloFrame(first[1..]) == first;
      Admitted(srv.(counter := srv.counter + 1), srv.counter, first[1..])
    else Refused
  }

  /** A client's hello is admitted exactly when its name is ASCII, under
      that name. */
  lemma HelloAdmitted(srv: Server, name: string)
    ensures Admit(srv, HelloFrame(name)).Admitted? <==> IsAscii(name)
    ensures IsAscii(name) ==> Admit(srv, HelloFrame(name)).name == name
  {
    assert HelloFrame(name)[1..] == name;
  }

  /** The number of leading race marks whose announcement encodes as ASCII;
      the announcement of the next one raises. */
  function Announceable(marks: seq<SailMark.RaceMark>): (k: nat)
    ensures k <= |marks|
    ensures forall i :: 0 <= i < k ==> IsAscii(marks[i].name) && IsAscii(marks[i].info)
    ensures k < |marks| ==> !(IsAscii(marks[k].name) && IsAscii(marks[k].info))
    decreases |marks|
  {
    if |marks| == 0 || !(IsAscii(marks[0].name) && IsAscii(marks[0].info)) then 0
    else 1 + Announceable(marks[1..])
  }

  /** The announcements 'M<i>:<name>:<info>:<position>' of the first `k`
      marks. */
  function Announcements(marks: seq<SailMark.RaceMark>, k: nat, codec: Codec): (r: seq<string>)
    requires k <= |marks|
    ensures |r| == k
    ensures forall i :: 0 <= i < k ==> r[i] == SailMark.Transmit(marks[i], i, codec)
  {
    seq(k, i requires 0 <= i < k => SailMark.Transmit(marks[i], i, codec))
  }

  /** The sends of a greeting, for any frames: the welcome `w`, the
      configuration, the birth `birth` to `others` when anyone is there,
      the earlier births and the announcements. */
  function Greet(conn: ConnId, w: string, config: seq<string>, others: set<ConnId>, birth: string,
                 births: seq<string>, announce: seq<string>): seq<Out>
  {
    [To(conn, w)] + Sends(conn, config)
    + (if others != {} then [Fanout(others, birth)] else [])
    + Sends(conn, births) + Sends(conn, announce)
  }

  /** Delivery over five runs of sends is delivery over each in turn. */
  lemma Delivered5(o1: seq<Out>, o2: seq<Out>, o3: seq<Out>, o4: seq<Out>, o5: seq<Out>, c: ConnId)
    ensures Delivered(o1 + o2 + o3 + o4 + o5, c)
      == Delivered(o1, c) + Delivered(o2, c) + Delivered(o3, c) + Delivered(o4, c) + Delivered(o5, c)
  {
    DeliveredAppend(o1 + o2 + o3 + o4, o5, c);
    DeliveredAppend(o1 + o2 + o3, o4, c);
    DeliveredAppend(o1 + o2, o3, c);
    DeliveredAppend(o1, o2, c);
  }

  /** Delivery of a greeting, part by part. */
  lemma GreetParts(conn: ConnId, w: string, config: seq<string>, others: set<ConnId>,
                   birth: string, births: seq<string>, announce: seq<string>, c: ConnId)
    ensures Delivered(Greet(conn, w, config, others, birth, births, announce), c)
      == Hit(To(conn, w), c) + Delivered(Sends(conn, config), c)
         + (if others != {} then Hit(Fanout(others, birth), c) else [])
         + Delivered(Sends(conn, births), c) + Delivered(Sends(conn, announce), c)
  {
    var o3 := if others != {} then [Fanout(others, birth)] else [];
    Delivered5([To(conn, w)], Sends(conn, config), o3, Sends(conn, births), Sends(conn, announce), c);
    SingleDelivered(To(conn, w), c);
    if others != {} {
      SingleDelivered(Fanout(others, birth), c);
    }
  }

  lemma GreetDelivered(conn: ConnId, w: string, config: seq<string>, others: set<ConnId>,
                       birth: string, births: seq<string>, announce: seq<string>, c: ConnId)
    requires conn !in others
    ensures c == conn ==>
      Delivered(Greet(conn, w, config, others, birth, births, announce), c) == [w] + config + births + announce
    ensures c != conn && c in others ==>
      Delivered(Greet(conn, w, config, others, birth, births, announce), c) == [birth]
    ensures c != conn && c !in others ==>
      Delivered(Greet(conn, w, config, others, birth, births, announce), c) == []
  {
    GreetParts(conn, w, config, others, birth, births, announce, c);
    SendsDelivered(conn, config, c);
    SendsDelivered(conn, births, c);
    SendsDelivered(conn, announce, c);
    var d3: seq<string> := if others != {} then Hit(Fanout(others, birth), c) else [];
    assert d3 == if c in others then [birth] else [];
    if c == conn {
      assert d3 == [];
      assert [w] + config + d3 == [w] + config;
    }
  }

  /** What the handshake sends once the craft has a box with start pose
      `start`: the welcome, the configuration frames, the newcomer's birth
      to everyone registered (when anyone is), their births to the newcomer,
      and the announcements of the first `k` race marks. */
  function Greeting(srv: Server, conn: ConnId, index: int, name: string, start: seq<real>,
                    k: nat, codec: Codec): seq<Out>
    requires k <= |srv.marks|
  {
    Greet(conn, WelcomeFrame(index, codec.pack(start)), srv.config, Conns(srv.registry),
          BirthFrame(index, name), Births(srv.registry), Announcements(srv.marks, k, codec))
  }

  /** The newcomer gets its welcome, the configuration, the births of those
      already registered in registration order and the announcements; every
      registered player gets the newcomer's birth once; nobody else gets
      anything. */
  lemma GreetingDeliveries(srv: Server, conn: ConnId, index: int, name: string,
                           start: seq<real>, k: nat, codec: Codec, c: ConnId)
    requires k <= |srv.marks| && conn !in Conns(srv.registry)
    ensures c == conn ==>
      Delivered(Greeting(srv, conn, index, name, start, k, codec), c) ==
        [WelcomeFrame(index, codec.pack(start))] + srv.config + Births(srv.registry)
        + Announcements(srv.marks, k, codec)
    ensures c != conn && c in Conns(srv.registry) ==>
      Delivered(Greeting(srv, conn, index, name, start, k, codec), c) == [BirthFrame(index, name)]
    ensures c != conn && c !in Conns(srv.registry) ==>
      Delivered(Greeting(srv, conn, index, name, start, k, codec), c) == []
  {
    GreetDelivered(conn, WelcomeFrame(index, codec.pack(start)), srv.config, Conns(srv.registry),
                   BirthFrame(index, name), Births(srv.registry), Announcements(srv.marks, k, codec), c);
  }

  /** The rest of the handshake for an admitted craft. */
  datatype Seating =
    | Waiting                  // IndexError: no free box; the handler sleeps and asks again
    | Clash                    // ValueError: the index already holds a box
    | Seated(srv: Server, sess: Session, out: seq<Out>, exit: Exit)

  /** The handshake after admission (server.py:113-162): take a start box,
      greet, register, and announce the race marks. An announcement that
      does not encode as ASCII raises, leaving the handler for its teardown.

      A clash raises before registration: the teardown's `del` then raises
      KeyError before it sends or resets anything, so the shared state stays
      as admission left it. */
  function Seat(srv: Server, conn: ConnId, index: int, name: string, codec: Codec): (r: Seating)
    requires conn !in Conns(srv.registry)
    ensures r.Clash? <==> index in srv.boxes.taken
    ensures r.Waiting? <==> index !in srv.boxes.taken && |srv.boxes.available| == 0
    ensures r.Seated? ==>
      && r.srv.registry == srv.registry + [Entry(conn, index, BirthFrame(index, name))]
      && r.srv.boxes == StartBoxes.Assign(srv.boxes, index).value.pool
      && r.srv.(registry := srv.registry, boxes := srv.boxes) == srv
      && r.sess == Session(conn, index, name, SailMark.NewState(name, index), 0)
      && r.out == Greeting(srv, conn, index, name, StartBoxes.Assign(srv.boxes, index).value.start,
                           Announceable(srv.marks), codec)
      && (r.exit == Running <==> Announceable(srv.marks) == |srv.marks|)
      && (r.exit != Running ==> r.exit == Faulted)
  {
    match StartBoxes.Assign(srv.boxes, index)
    case Err(e) => if e == StartBoxes.NoFreeBox then Waiting else Clash
    case Ok(a) =>
      var k := Announceable(srv.marks);
      Seated(srv.(boxes := a.pool, registry := srv.registry + [Entry(conn, index, BirthFrame(index, name))]),
             Session(conn, index, name, SailMark.NewState(name, index), 0),
             Greeting(srv, conn, index, name, a.start, k, codec),
             if k == |srv.marks| then Running else Faulted)
  }

  // ---------------------------------------------------------------------
  // The update loop
  // ---------------------------------------------------------------------

  /** The result of one step of a handler. */
  datatype Turn = Turn(srv: Server, sess: Session, out: seq<Out>, exit: Exit)

  /** The position a frame carries: at most the first two floats of its
      second ':'-field; None where the field is missing (IndexError) or does
      not decode. */
  function Position(frame: string, codec: Codec): (r: Option<seq<real>>)
    ensures r.Some? <==> |Split(frame)| >= 2 && codec.unpack(Split(frame)[1]).Some?
    ensures r.Some? ==> |r.value| <= 2 && r.value <= codec.unpack(Split(frame)[1]).value
    ensures r.Some? && |codec.unpack(Split(frame)[1]).value| >= 2 ==> |r.value| == 2
  {
    var fields := Split(frame);
    if |fields| < 2 then None
    else match codec.unpack(fields[1])
      case None => None
      case Some(floats) => Some(if |floats| <= 2 then floats else floats[..2])
  }

  /** The server reads back the position a client's update frame carries:
      the first two of the packed floats (the fifteen-float pose starts
      with the position). */
  lemma UpdatePosition(idx: int, fl: seq<real>, codec: Codec)
    requires |fl| >= 2
    requires ':' !in codec.pack(fl)
    requires codec.unpack(codec.pack(fl)) == Some(fl)
    ensures Position(UpdateFrame(idx, codec.pack(fl)), codec) == Some(fl[..2])
  {
    var payload := codec.pack(fl);
    assert UpdateFrame(idx, payload) == "U" + Decimal(idx) + ":" + payload;
    SplitField("U" + Decimal(idx), payload);
    SplitColonFree(payload);
    assert Split(UpdateFrame(idx, payload))[1] == payload;
    if |fl| == 2 {
      assert fl[..2] == fl;
    }
  }

  /** `startboxes.update(index, pos)` with numpy's reading of `pos`: two
      values are the position, one value is broadcast to both coordinates,
      and none raises (only reached when the craft holds a box). */
  function BoxCheck(p: StartBoxes.Pool, craft: int, pos: seq<real>): (r: Option<StartBoxes.Pool>)
    requires |pos| <= 2
    ensures r.None? <==> craft in p.taken && |pos| == 0
    ensures r.Some? && |pos| == 2 ==> r.value == StartBoxes.Update(p, craft, pos[0], pos[1])
    ensures r.Some? && |pos| == 1 ==> r.value == StartBoxes.Update(p, craft, pos[0], pos[0])
    ensures r.Some? ==> r.value.taken.Keys <= p.taken.Keys
  {
    if craft !in p.taken then Some(p)
    else if |pos| == 2 then Some(StartBoxes.Update(p, craft, pos[0], pos[1]))
    else if |pos| == 1 then Some(StartBoxes.Update(p, craft, pos[0], pos[0]))
    else None
  }

  function EventFrames(events: seq<SailMark.Event>): (r: seq<string>)
    ensures |r| == |events|
    ensures forall i :: 0 <= i < |events| ==> r[i] == SailMark.EventFrame(events[i])
    ensures forall f :: f in r ==> |f| > 0 && f[0] == 'S'
  {
    seq(|events|, i requires 0 <= i < |events| => SailMark.EventFrame(events[i]))
  }

  /** Every send of a run of sends to one connection carries one of the
      frames, to that connection. */
  lemma {:induction false} SendsShape(conn: ConnId, frames: seq<string>)
    ensures forall o :: o in Sends(conn, frames) ==> o.To? && o.conn == conn && o.frame in frames
    decreases |frames|
  {
    if |frames| > 0 {
      SendsShape(conn, frames[..|frames| - 1]);
      assert forall f :: f in frames[..|frames| - 1] ==> f in frames;
    }
  }

  /** The marks' verdict on the position; with no marks the position is
      never read. */
  function Judge(marks: seq<SailMark.RaceMark>, s: SailMark.MarkState, pos: seq<real>, rtime: string): (r: Course.Pass)
    requires |marks| == 0 || |pos| == 2
    ensures |marks| == 0 ==> r.state == s && r.events == [] && !r.fault
    ensures s.index <= r.state.index
    ensures r.state.penalty == s.penalty + Course.Charges(marks, r.events)
    ensures forall k :: 0 <= k < |r.events| ==> 0 <= r.events[k].mark < |marks|
  {
    if |marks| == 0 then Course.Pass(s, [], false) else Course.PassAll(marks, s, pos[0], pos[1], rtime)
  }

  /** What the handler does with a decoded position (server.py:197-210):
      check the start box, let each race mark judge the position and send
      its event back, then send the wind if the clock moved since the last
      time. Every send goes to the sender. */
  function Respond(srv: Server, sess: Session, pos: seq<real>, rtime: string): (r: Turn)
    requires |pos| <= 2
    ensures r.exit != Departed
    ensures r.srv == srv.(boxes := r.srv.boxes)
    ensures r.srv.boxes.taken.Keys <= srv.boxes.taken.Keys
    ensures r.sess.conn == sess.conn && r.sess.index == sess.index && r.sess.name == sess.name
    ensures sess.race.index <= r.sess.race.index
    ensures r.exit == Running ==> r.sess.seen == srv.seconds
    ensures r.exit != Running ==> r.sess.seen == sess.seen
    ensures forall o :: o in r.out ==> o.To? && o.conn == sess.conn
    ensures forall o :: o in r.out ==> |o.frame| > 0 && (o.frame[0] == 'S' || o.frame == WindFrame(srv.wind))
    ensures To(sess.conn, WindFrame(srv.wind)) in r.out ==> sess.seen != srv.seconds
    ensures r.exit == Running ==> (To(sess.conn, WindFrame(srv.wind)) in r.out <==> sess.seen != srv.seconds)
    ensures |pos| == 2 ==>
      (To(sess.conn, WindFrame(srv.wind)) in r.out <==> r.exit == Running && sess.seen != srv.seconds)
    ensures |pos| < 2 && sess.seen != srv.seconds ==> r.exit == Faulted
    ensures BoxCheck(srv.boxes, sess.index, pos).None? ==> r.exit == Faulted && r.out == []
    ensures |srv.marks| > 0 && |pos| < 2 ==> r.exit == Faulted && r.out == []
  {
    match BoxCheck(srv.boxes, sess.index, pos)
    case None => Turn(srv, sess, [], Faulted)
    case Some(boxes) =>
      var srv1 := srv.(boxes := boxes);
      if |srv.marks| > 0 && |pos| < 2 then Turn(srv1, sess, [], Faulted)
      else
        var p := Judge(srv.marks, sess.race, pos, rtime);
        var frames := EventFrames(p.events);
        var sent := Sends(sess.conn, frames);
        SendsShape(sess.conn, frames);
        var sess1 := sess.(race := p.state);
        if p.fault then Turn(srv1, sess1, sent, Faulted)
        else if sess.seen != srv.seconds then
          var out := sent + [To(sess.conn, WindFrame(srv.wind))];
          // the track log after the wind reads pos[0] and pos[1]
          if |pos| < 2 then Turn(srv1, sess1, out, Faulted)
          else Turn(srv1, sess1.(seen := srv.seconds), out, Running)
        else Turn(srv1, sess1, sent, Running)
  }

  /** The copy of a frame to every other registered connection, sent only
      when someone else is registered. */
  function Forward(srv: Server, conn: ConnId, frame: string): seq<Out> {
    if |srv.registry| > 1 then [Fanout(Conns(srv.registry) - {conn}, frame)] else []
  }

  lemma ForwardDelivered(srv: Server, conn: ConnId, frame: string, c: ConnId)
    requires conn in Conns(srv.registry)
    ensures Delivered(Forward(srv, conn, frame), c) ==
      if c in Conns(srv.registry) && c != conn then [frame] else []
  {
    if |srv.registry| > 1 {
      FanoutDelivered(Conns(srv.registry) - {conn}, frame, c);
    } else {
      assert srv.registry == [srv.registry[0]];
      assert Conns(srv.registry) == {srv.registry[0].conn};
    }
  }

  /** Sends that all go to one connection reach nobody else, and that one
      only with their own frames. */
  lemma {:induction false} OwnDelivered(out: seq<Out>, conn: ConnId, c: ConnId)
    requires forall o :: o in out ==> o.To? && o.conn == conn
    ensures c != conn ==> Delivered(out, c) == []
    ensures forall f :: f in Delivered(out, c) ==> exists o :: o in out && o.frame == f
    decreases |out|
  {
    if |out| > 0 {
      OwnDelivered(out[..|out| - 1], conn, c);
      assert forall o :: o in out[..|out| - 1] ==> o in out;
    }
  }

  /** One frame received in the update loop (server.py:167-210), `rtime`
      being the elapsed time a rounding or finish reports.

      A frame starting with 'D' ends the loop. Every other frame, whatever
      its tag, is kept as the craft's latest and forwarded; then its
      position is decoded and answered. A frame that cannot be decoded, or
      a mark scored 'finish' that must charge a penalty, raises. */
  function OnFrame(srv: Server, sess: Session, frame: string, codec: Codec, rtime: string): (r: Turn)
    ensures r.exit == Departed <==> |frame| > 0 && frame[0] == 'D'
    ensures r.exit == Departed ==> r.srv == srv && r.sess == sess && r.out == []
    ensures r.exit != Departed ==> r.srv.latest == srv.latest[sess.index := frame]
    ensures r.srv.registry == srv.registry && r.srv.counter == srv.counter
    ensures r.srv.seconds == srv.seconds && r.srv.wind == srv.wind
    ensures r.srv.config == srv.config && r.srv.marks == srv.marks
    ensures r.srv.boxes.taken.Keys <= srv.boxes.taken.Keys
    ensures r.sess.conn == sess.conn && r.sess.index == sess.index && r.sess.name == sess.name
    ensures sess.race.index <= r.sess.race.index
    ensures r.exit == Running ==> r.sess.seen == srv.seconds
    ensures r.exit != Running ==> r.sess.seen == sess.seen
    ensures r.exit != Departed && Position(frame, codec).None? ==> r.exit == Faulted
    ensures To(sess.conn, WindFrame(srv.wind)) in r.out ==> r.exit != Departed && sess.seen != srv.seconds
    ensures r.exit == Running ==> (To(sess.conn, WindFrame(srv.wind)) in r.out <==> sess.seen != srv.seconds)
  {
    if |frame| > 0 && frame[0] == 'D' then Turn(srv, sess, [], Departed)
    else
      var srv1 := srv.(latest := srv.latest[sess.index := frame]);
      var fwd := Forward(srv, sess.conn, frame);
      match Position(frame, codec)
      case None => Turn(srv1, sess, fwd, Faulted)
      case Some(pos) =>
        var t := Respond(srv1, sess, pos, rtime);
        Turn(t.srv, t.sess, fwd + t.out, t.exit)
  }

  /** A frame other than 'D' yields the forwarded copy followed by the
      sender's own answers. */
  lemma FrameOut(srv: Server, sess: Session, frame: string, codec: Codec, rtime: string) returns (own: seq<Out>)
    requires !(|frame| > 0 && frame[0] == 'D')
    ensures OnFrame(srv, sess, frame, codec, rtime).out == Forward(srv, sess.conn, frame) + own
    ensures forall o :: o in own ==> o.To? && o.conn == sess.conn
    ensures forall o :: o in own ==> |o.frame| > 0 && (o.frame[0] == 'S' || o.frame == WindFrame(srv.wind))
  {
    var srv1 := srv.(latest := srv.latest[sess.index := frame]);
    own := match Position(frame, codec)
      case None => []
      case Some(pos) => Respond(srv1, sess, pos, rtime).out;
  }

  /** Forwarding: a frame other than 'D' reaches every other registered
      connection exactly once, whatever its tag (the run-protocol error at
      server.py:175 is built but never raised); the sender gets only its
      race events and the wind; nobody else gets anything. */
  lemma {:induction false} FrameDeliveries(srv: Server, sess: Session, frame: string, codec: Codec, rtime: string, c: ConnId)
    requires sess.conn in Conns(srv.registry)
    requires !(|frame| > 0 && frame[0] == 'D')
    ensures c in Conns(srv.registry) && c != sess.conn ==>
      Delivered(OnFrame(srv, sess, frame, codec, rtime).out, c) == [frame]
    ensures c !in Conns(srv.registry) ==> Delivered(OnFrame(srv, sess, frame, codec, rtime).out, c) == []
    ensures forall f :: f in Delivered(OnFrame(srv, sess, frame, codec, rtime).out, sess.conn) ==>
      |f| > 0 && (f[0] == 'S' || f == WindFrame(srv.wind))
  {
    var own := FrameOut(srv, sess, frame, codec, rtime);
    ForwardThenOwn(srv, sess.conn, frame, own, WindFrame(srv.wind), c);
  }

  /** Delivery of a forwarded frame followed by sends to the sender alone. */
  lemma ForwardThenOwn(srv: Server, conn: ConnId, frame: string, own: seq<Out>, wind: string, c: ConnId)
    requires conn in Conns(srv.registry)
    requires forall o :: o in own ==> o.To? && o.conn == conn
    requires forall o :: o in own ==> |o.frame| > 0 && (o.frame[0] == 'S' || o.frame == wind)
    ensures c in Conns(srv.registry) && c != conn ==> Delivered(Forward(srv, conn, frame) + own, c) == [frame]
    ensures c !in Conns(srv.registry) ==> Delivered(Forward(srv, conn, frame) + own, c) == []
    ensures forall f :: f in Delivered(Forward(srv, conn, frame) + own, conn) ==>
      |f| > 0 && (f[0] == 'S' || f == wind)
  {
    var fwd := Forward(srv, conn, frame);
    ForwardDelivered(srv, conn, frame, c);
    ForwardDelivered(srv, conn, frame, conn);
    DeliveredAppend(fwd, own, c);
    DeliveredAppend(fwd, own, conn);
    OwnDelivered(own, conn, c);
    OwnDelivered(own, conn, conn);
  }

  /** Within one clock step the wind is sent at most once: after a frame
      that keeps the loop running, the next frame sends no wind. */
  lemma WindOnce(srv: Server, sess: Session, f1: string, f2: string, codec: Codec, t1: string, t2: string)
    requires OnFrame(srv, sess, f1, codec, t1).exit == Running
    ensures To(sess.conn, WindFrame(srv.wind)) !in
      OnFrame(OnFrame(srv, sess, f1, codec, t1).srv, OnFrame(srv, sess, f1, codec, t1).sess, f2, codec, t2).out
  {
  }

  /** After a tick, the next frame that keeps the loop running carries the
      new wind to the sender. */
  lemma WindAfterTick(srv: Server, sess: Session, wind: string, frame: string, codec: Codec, rtime: string)
    requires sess.seen <= srv.seconds
    requires OnFrame(Tick(srv, wind), sess, frame, codec, rtime).exit == Running
    ensures To(sess.conn, WindFrame(wind)) in OnFrame(Tick(srv, wind), sess, frame, codec, rtime).out
  {
  }

  // ---------------------------------------------------------------------
  // Teardown
  // ---------------------------------------------------------------------

  datatype Farewell = Farewell(srv: Server, out: seq<Out>)

  /** The `finally` of `_communicate` as written (server.py:214-225): drop
      the registration, send the death notice to whoever is left, or reset
      the life counter when nobody is. The craft's start box is not given
      back. A connection that never registered makes `del` raise KeyError
      before anything else happens. */
  function TeardownAsWritten(srv: Server, sess: Session): (r: Farewell)
    ensures sess.conn !in Conns(srv.registry) ==> r == Farewell(srv, [])
    ensures sess.conn in Conns(srv.registry) ==> r.srv.registry == Remove(srv.registry, sess.conn)
    ensures r.srv.(registry := srv.registry, counter := srv.counter) == srv
    ensures sess.conn in Conns(srv.registry) && |r.srv.registry| > 0 ==>
      r.srv.counter == srv.counter && r.out == [Fanout(Conns(r.srv.registry), DeathFrame(sess.index))]
    ensures sess.conn in Conns(srv.registry) && |r.srv.registry| == 0 ==> r.srv.counter == 0 && r.out == []
  {
    if sess.conn !in Conns(srv.registry) then Farewell(srv, [])
    else
      var rest := Remove(srv.registry, sess.conn);
      if |rest| > 0 then Farewell(srv.(registry := rest), [Fanout(Conns(rest), DeathFrame(sess.index))])
      else Farewell(srv.(registry := rest, counter := 0), [])
  }

  /** The teardown with the start box given back (`StartBoxes.left`, which
      exists for this and is never called). */
  function Teardown(srv: Server, sess: Session): (r: Farewell)
    ensures r.out == TeardownAsWritten(srv, sess).out
    ensures r.srv == TeardownAsWritten(srv, sess).srv.(boxes := r.srv.boxes)
    ensures sess.conn !in Conns(srv.registry) ==> r.srv.boxes == srv.boxes
    ensures sess.conn in Conns(srv.registry) ==> r.srv.boxes == StartBoxes.Left(srv.boxes, sess.index)
  {
    var w := TeardownAsWritten(srv, sess);
    if sess.conn !in Conns(srv.registry) then w
    else w.(srv := w.srv.(boxes := StartBoxes.Left(srv.boxes, sess.index)))
  }

  /** The death notice reaches every remaining player once, and nobody
      else. */
  lemma TeardownDeliveries(srv: Server, sess: Session, c: ConnId)
    requires sess.conn in Conns(srv.registry)
    ensures Delivered(Teardown(srv, sess).out, c) ==
      if c in Conns(srv.registry) && c != sess.conn then [DeathFrame(sess.index)] else []
  {
    var rest := Remove(srv.registry, sess.conn);
    if |rest| > 0 {
      FanoutDelivered(Conns(rest), DeathFrame(sess.index), c);
    } else {
      assert Conns(rest) == {};
    }
  }

  // ---------------------------------------------------------------------
  // Invariants
  // ---------------------------------------------------------------------

  /** The registry is well formed: no connection or index twice, and every
      registered index was handed out by the counter. */
  ghost predicate Sound(srv: Server) {
    && 0 <= srv.counter
    && Distinct(srv.registry)
    && (forall e :: e in srv.registry ==> 0 <= e.index < srv.counter)
  }

  /** A session is the one registered for its connection. */
  ghost predicate Owns(srv: Server, sess: Session) {
    forall e :: e in srv.registry && e.conn == sess.conn ==> e.index == sess.index
  }

  /** Every held start box belongs to a registered craft. */
  ghost predicate Tidy(srv: Server) {
    Sound(srv) && srv.boxes.taken.Keys <= Indices(srv.registry)
  }

  /** Registering a new connection under an index above every registered
      one keeps the registry distinct. */
  lemma {:induction false} RegisterDistinct(reg: seq<Entry>, e: Entry)
    requires Distinct(reg) && e.conn !in Conns(reg)
    requires forall x :: x in reg ==> x.index < e.index
    ensures Distinct(reg + [e])
  {
    var r := reg + [e];
    forall x, y | 0 <= x < y < |r|
      ensures r[x].conn != r[y].conn && r[x].index != r[y].index
    {
      if y == |reg| {
        assert r[x] == reg[x] && reg[x] in reg;
      } else {
        assert r[x] == reg[x] && r[y] == reg[y];
      }
    }
  }

  /** A join done in one go keeps the registry sound and tidy: the index is
      the counter's value, above every registered one, and the session owns
      its registration. */
  lemma JoinSound(srv: Server, conn: ConnId, first: string, codec: Codec)
    requires Sound(srv) && conn !in Conns(srv.registry)
    requires Admit(srv, first).Admitted?
    requires Seat(Admit(srv, first).srv, conn, Admit(srv, first).index, Admit(srv, first).name, codec).Seated?
    ensures Sound(Seat(Admit(srv, first).srv, conn, Admit(srv, first).index, Admit(srv, first).name, codec).srv)
    ensures Tidy(srv) ==> Tidy(Seat(Admit(srv, first).srv, conn, Admit(srv, first).index, Admit(srv, first).name, codec).srv)
    ensures Owns(Seat(Admit(srv, first).srv, conn, Admit(srv, first).index, Admit(srv, first).name, codec).srv,
                 Seat(Admit(srv, first).srv, conn, Admit(srv, first).index, Admit(srv, first).name, codec).sess)
  {
    var a := Admit(srv, first);
    assert a.index == srv.counter && a.srv.counter == srv.counter + 1 && a.srv.registry == srv.registry
      && a.srv.boxes == srv.boxes;
    var r := Seat(a.srv, conn, a.index, a.name, codec);
    var e := Entry(conn, a.index, BirthFrame(a.index, a.name));
    assert r.srv.registry == srv.registry + [e] && r.srv.counter == srv.counter + 1;
    assert r.sess.conn == conn && r.sess.index == a.index;
    assert r.srv.boxes.taken.Keys == srv.boxes.taken.Keys + {a.index};
    RegisterDistinct(srv.registry, e);
    assert forall x :: x in r.srv.registry <==> x in srv.registry || x == e;
    assert Indices(r.srv.registry) == Indices(srv.registry) + {a.index};
  }

  /** An update step keeps the registry sound and tidy: it only ever frees
      boxes. */
  lemma FrameSound(srv: Server, sess: Session, frame: string, codec: Codec, rtime: string)
    requires Sound(srv)
    ensures Sound(OnFrame(srv, sess, frame, codec, rtime).srv)
    ensures Tidy(srv) ==> Tidy(OnFrame(srv, sess, frame, codec, rtime).srv)
    ensures Owns(srv, sess) ==> Owns(OnFrame(srv, sess, frame, codec, rtime).srv, OnFrame(srv, sess, frame, codec, rtime).sess)
  {
  }

  /** The teardown as written keeps the registry sound: the counter goes
      back to zero only when nobody is registered. */
  lemma TeardownAsWrittenSound(srv: Server, sess: Session)
    requires Sound(srv)
    ensures Sound(TeardownAsWritten(srv, sess).srv)
  {
    RemoveDistinct(srv.registry, sess.conn);
  }

  /** The corrected teardown keeps every held box owned by a registered
      craft. */
  lemma TeardownTidy(srv: Server, sess: Session)
    requires Tidy(srv) && Owns(srv, sess)
    ensures Tidy(Teardown(srv, sess).srv)
  {
    RemoveDistinct(srv.registry, sess.conn);
    RemoveIndices(srv.registry, sess.conn, sess.index);
  }

  /** In a tidy server an admitted craft never clashes over a start box. */
  lemma TidyNoClash(srv: Server, conn: ConnId, first: string, codec: Codec)
    requires Tidy(srv) && conn !in Conns(srv.registry)
    requires Admit(srv, first).Admitted?
    ensures !Seat(Admit(srv, first).srv, conn, Admit(srv, first).index, Admit(srv, first).name, codec).Clash?
  {
    assert srv.counter !in Indices(srv.registry);
  }
}
