/** The client side of the protocol (communicator.py): building the pose
    update, reading the server's welcome, and dispatching every inbound
    frame by its tag onto the client's view of the race.

    In the source a failing frame raises inside the drain loop; the generic
    handler logs it and the loop goes on with the next frame, so here a
    failing frame leaves the client unchanged. Only a receive timeout ends a
    drain, which here is the end of the list of buffered frames. */
module Communicator {
  import opened Wrappers
  import opened Wire
  import opened Frames
  import SailMark

  /** The fifteen floats of an update: position, quaternion, linear and
      angular velocity, rudder and sail angle. */
  datatype Pose = Pose(pos: seq<real>, quat: seq<real>, vel: seq<real>, omega: seq<real>,
                       rudder: real, sail: real)

  function PoseOf(fl: seq<real>): (p: Pose)
    requires |fl| >= 15
    ensures |p.pos| == 3 && |p.quat| == 4 && |p.vel| == 3 && |p.omega| == 3
    ensures p.pos + p.quat + p.vel + p.omega + [p.rudder, p.sail] == fl[..15]
  {
    Pose(fl[..3], fl[3..7], fl[7..10], fl[10..13], fl[13], fl[14])
  }

  /** Another craft as this client sees it; `pose` is None until its first
      update arrives (its body is parked and disabled until then). */
  datatype Proxy = Proxy(name: string, index: int, pose: Option<Pose>)

  /** A race mark as announced: the character after 'M', name, info text,
      position. */
  datatype MarkInfo = MarkInfo(kind: char, name: string, info: string, coords: seq<real>)

  /** A race event as logged for the operator: subtype letter, mark index,
      time or penalty value. */
  datatype SailEvent = SailEvent(kind: char, mark: int, value: real)

  /** The client's wind vector. The game creates it from a tuple of
      integers, so numpy holds it as an integer array and every value
      assigned into it is truncated toward zero. */
  datatype Wind = Wind(north: int, east: int, down: int)

  /** numpy's cast of a float into an integer array element: truncation
      toward zero. */
  function Trunc(x: real): (n: int)
    ensures 0.0 <= x ==> 0 <= n && n as real <= x < n as real + 1.0
    ensures x < 0.0 ==> n <= 0 && n as real - 1.0 < x <= n as real
  {
    if x >= 0.0 then x.Floor else -((-x).Floor)
  }

  datatype StaticObject = StaticObject(name: string, coords: seq<real>)

  datatype Obstacle = Obstacle(name: string, geom: string, coords: seq<real>)

  /** Everything the dispatch writes to: the other crafts by index, the
      mark list, the event list, the wind vector, and the static world. */
  datatype Client = Client(
    idx: int,
    others: map<int, Proxy>,
    marks: seq<MarkInfo>,
    events: seq<SailEvent>,
    wind: Wind,
    objects: seq<StaticObject>,
    obstacles: seq<Obstacle>)

  /** Why a frame was dropped: `UnknownTag` is the ConnectionError the
      dispatch raises itself, `UnknownCraft` the KeyError of a lookup in the
      other-craft dict, `Malformed` any failure to read the fields. */
  datatype Fault = UnknownTag | UnknownCraft | Malformed

  function Need<T>(o: Option<T>): Result<T, Fault> {
    match o
    case Some(v) => Ok(v)
    case None => Err(Malformed)
  }

  /** `.decode('ascii')` of a field. */
  function Text(s: string): Result<string, Fault> {
    if IsAscii(s) then Ok(s) else Err(Malformed)
  }

  /** The tags `_getOtherData` knows. */
  predicate KnownTag(c: char) {
    c in "UDBELOMS"
  }

  /** 'U<index>:<payload>': the fifteen floats replace the pose of a known
      craft wholesale. */
  function OnUpdate(c: Client, rest: string, codec: Codec): (r: Result<Client, Fault>)
    ensures r.Ok? ==> r.value.(others := c.others) == c && r.value.others.Keys == c.others.Keys
    ensures r.Err? ==> r.error != UnknownTag
  {
    var index :- Need(ParseInt(Split(rest)[0]));
    var payload :- Need(Field(rest, 1));
    var fl :- Need(codec.unpack(payload));
    if |fl| < 15 then Err(Malformed)
    else if index !in c.others then Err(UnknownCraft)
    else Ok(c.(others := c.others[index := c.others[index].(pose := Some(PoseOf(fl)))]))
  }

  /** 'D<index>': the craft is removed. */
  function OnDeath(c: Client, rest: string): (r: Result<Client, Fault>)
    ensures r.Ok? ==> r.value.(others := c.others) == c
    ensures r.Err? ==> r.error != UnknownTag
  {
    var index :- Need(ParseInt(rest));
    if index !in c.others then Err(UnknownCraft)
    else Ok(c.(others := c.others - {index}))
  }

  /** 'B<index>:<name>': a fresh proxy, replacing any under that index. */
  function OnBirth(c: Client, rest: string): (r: Result<Client, Fault>)
    ensures r.Ok? ==> r.value.(others := c.others) == c
    ensures r.Err? ==> r.error != UnknownTag
  {
    var index :- Need(ParseInt(Split(rest)[0]));
    var field :- Need(Field(rest, 1));
    var name :- Text(field);
    Ok(c.(others := c.others[index := Proxy(name, index, None)]))
  }

  /** 'E<payload>': `_speed[:2] = ndata`, where numpy broadcasts a single
      value to both components, refuses any other length, and truncates
      each value into the integer array. */
  function OnWind(c: Client, rest: string, codec: Codec): (r: Result<Client, Fault>)
    ensures r.Ok? ==> r.value.(wind := c.wind) == c && r.value.wind.down == c.wind.down
    ensures r.Err? ==> r.error != UnknownTag
  {
    var fl :- Need(codec.unpack(rest));
    if |fl| == 2 then Ok(c.(wind := c.wind.(north := Trunc(fl[0]), east := Trunc(fl[1]))))
    else if |fl| == 1 then Ok(c.(wind := c.wind.(north := Trunc(fl[0]), east := Trunc(fl[0]))))
    else Err(Malformed)
  }

  /** 'L<name>:<payload>': a static object. */
  function OnObject(c: Client, rest: string, codec: Codec): (r: Result<Client, Fault>)
    ensures r.Ok? ==> r.value.(objects := c.objects) == c
    ensures r.Err? ==> r.error != UnknownTag
  {
    var name :- Text(Split(rest)[0]);
    var payload :- Need(Field(rest, 1));
    var posn :- Need(codec.unpack(payload));
    Ok(c.(objects := c.objects + [StaticObject(name, posn)]))
  }

  /** 'O<name>:<geom>:<payload>': an obstruction. */
  function OnObstruction(c: Client, rest: string, codec: Codec): (r: Result<Client, Fault>)
    ensures r.Ok? ==> r.value.(obstacles := c.obstacles) == c
    ensures r.Err? ==> r.error != UnknownTag
  {
    var name :- Text(Split(rest)[0]);
    var field :- Need(Field(rest, 1));
    var geom :- Text(field);
    var payload :- Need(Field(rest, 2));
    var coords :- Need(codec.unpack(payload));
    Ok(c.(obstacles := c.obstacles + [Obstacle(name, geom, coords)]))
  }

  /** 'M...': the whole frame must split into exactly four fields; the kind
      is the character after the 'M'. */
  function OnMark(c: Client, frame: string, codec: Codec): (r: Result<Client, Fault>)
    ensures r.Ok? ==> r.value.(marks := c.marks) == c
    ensures r.Err? ==> r.error != UnknownTag
  {
    var fields := Split(frame);
    if |fields| != 4 then Err(Malformed)
    else
      var name :- Text(fields[1]);
      var info :- Text(fields[2]);
      var coords :- Need(codec.unpack(fields[3]));
      var cmd :- Text(fields[0]);
      if |cmd| < 2 then Err(Malformed)
      else Ok(c.(marks := c.marks + [MarkInfo(cmd[1], name, info, coords)]))
  }

  /** 'S<kind><mark>:<value>': what follows the kind must split into exactly
      two fields. */
  function OnEvent(c: Client, frame: string, codec: Codec): (r: Result<Client, Fault>)
    requires |frame| > 0
    ensures r.Ok? ==> r.value.(events := c.events) == c
    ensures r.Err? ==> r.error != UnknownTag
  {
    var parts := Split(if |frame| < 2 then "" else frame[2..]);
    if |parts| != 2 then Err(Malformed)
    else
      var mark :- Need(ParseInt(parts[0]));
      var kind :- Text(frame[1..2]);
      var value :- Need(codec.number(parts[1]));
      Ok(c.(events := c.events + [SailEvent(kind[0], mark, value)]))
  }

  /** One inbound frame, as `_getOtherData` handles it: each tag writes only
      its own part of the client, and only an unknown tag raises the
      ConnectionError. */
  function Dispatch(c: Client, frame: string, codec: Codec): (r: Result<Client, Fault>)
    ensures r.Err? && r.error == UnknownTag <==> |frame| > 0 && !KnownTag(frame[0])
    ensures r.Ok? ==> |frame| > 0 && r.value.idx == c.idx && r.value.wind.down == c.wind.down
    ensures r.Ok? && |frame| > 0 && frame[0] != 'B' && frame[0] != 'D' ==>
      r.value.others.Keys == c.others.Keys
    ensures r.Ok? && |frame| > 0 && frame[0] != 'M' ==> r.value.marks == c.marks
    ensures r.Ok? && |frame| > 0 && frame[0] != 'S' ==> r.value.events == c.events
    ensures r.Ok? && |frame| > 0 && frame[0] != 'E' ==> r.value.wind == c.wind
  {
    if |frame| == 0 then Err(Malformed)
    else
      var tag, rest := frame[0], frame[1..];
      if tag == 'U' then OnUpdate(c, rest, codec)
      else if tag == 'D' then OnDeath(c, rest)
      else if tag == 'B' then OnBirth(c, rest)
      else if tag == 'E' then OnWind(c, rest, codec)
      else if tag == 'L' then OnObject(c, rest, codec)
      else if tag == 'O' then OnObstruction(c, rest, codec)
      else if tag == 'M' then OnMark(c, frame, codec)
      else if tag == 'S' then OnEvent(c, frame, codec)
      else Err(UnknownTag)
  }

  /** `_getOtherData`: every buffered frame in order; a failing frame is
      logged and skipped. */
  function Drain(c: Client, frames: seq<string>, codec: Codec): Client
    decreases |frames|
  {
    if |frames| == 0 then c
    else Drain(Handle(c, frames[0], codec), frames[1..], codec)
  }

  /** The client after one frame, a failing frame being dropped. */
  function Handle(c: Client, frame: string, codec: Codec): Client {
    match Dispatch(c, frame, codec)
    case Ok(c1) => c1
    case Err(_) => c
  }

  /** Draining two batches one after the other is draining them together,
      and a frame with an unknown tag is skipped without a trace. */
  lemma {:induction false} DrainConcat(c: Client, a: seq<string>, b: seq<string>, codec: Codec)
    ensures Drain(c, a + b, codec) == Drain(Drain(c, a, codec), b, codec)
    decreases |a|
  {
    if |a| == 0 {
      assert a + b == b;
    } else {
      var next := Handle(c, a[0], codec);
      assert (a + b)[0] == a[0];
      assert (a + b)[1..] == a[1..] + b;
      assert Drain(c, a + b, codec) == Drain(next, a[1..] + b, codec);
      DrainConcat(next, a[1..], b, codec);
    }
  }

  lemma {:induction false} DrainSkipsUnknownTag(c: Client, bad: string, rest: seq<string>, codec: Codec)
    requires |bad| > 0 && !KnownTag(bad[0])
    ensures Drain(c, [bad] + rest, codec) == Drain(c, rest, codec)
  {
    assert ([bad] + rest)[1..] == rest;
  }

  /** Draining never changes the client's own index, and frames other than
      births and deaths never change which crafts it knows. */
  lemma {:induction false} DrainKeepsCrafts(c: Client, frames: seq<string>, codec: Codec)
    requires forall i :: 0 <= i < |frames| ==> |frames[i]| > 0 && frames[i][0] != 'B' && frames[i][0] != 'D'
    ensures Drain(c, frames, codec).others.Keys == c.others.Keys
    ensures Drain(c, frames, codec).idx == c.idx
    decreases |frames|
  {
    if |frames| > 0 {
      DrainKeepsCrafts(Handle(c, frames[0], codec), frames[1..], codec);
    }
  }

  /** No frame, however malformed, changes the client's own index. */
  lemma {:induction false} DrainKeepsIndex(c: Client, frames: seq<string>, codec: Codec)
    ensures Drain(c, frames, codec).idx == c.idx
    decreases |frames|
  {
    if |frames| > 0 {
      DrainKeepsIndex(Handle(c, frames[0], codec), frames[1..], codec);
    }
  }

  // ---------------------------------------------------------------------
  // Connection set-up, the per-tick send, and close
  // ---------------------------------------------------------------------

  /** What the welcome gives the client: its index and start pose. */
  datatype Welcome = Welcome(idx: int, position: seq<real>, quaternion: seq<real>)

  /** `_initCommunication`: the reply must start with 'W' (else
      ConnectionError); the index is the integer before the first ':' and
      the start pose the packed field after it. */
  function ParseWelcome(conf: string, codec: Codec): (r: Result<Welcome, Fault>)
    ensures (|conf| == 0 || conf[0] != 'W') ==> r == Err(UnknownTag)
    ensures r.Ok? ==> ParseInt(Split(conf[1..])[0]) == Some(r.value.idx)
    ensures r.Ok? ==> |r.value.position| == 3
  {
    if |conf| == 0 || conf[0] != 'W' then Err(UnknownTag)
    else
      var idx :- Need(ParseInt(Split(conf[1..])[0]));
      var payload :- Need(Field(conf, 1));
      var fl :- Need(codec.unpack(payload));
      if |fl| < 7 then Err(Malformed)
      else Ok(Welcome(idx, fl[..3], fl[3..]))
  }

  /** The client after the welcome: its own index, nothing else known yet. */
  function NewClient(w: Welcome, wind: Wind): (c: Client)
    ensures c.idx == w.idx && c.others == map[] && c.marks == [] && c.events == []
  {
    Client(w.idx, map[], [], [], wind, [], [])
  }

  /** `Communicator.update`: the frame sent for the local pose, and the
      client after draining what was buffered meanwhile. */
  function Tick(c: Client, payload: string, inbox: seq<string>, codec: Codec): (r: (string, Client))
    // the frame sent names this client and carries the payload intact
    ensures |r.0| > 0 && r.0[0] == 'U'
    ensures ':' !in payload ==>
      ParseInt(Split(r.0[1..])[0]) == Some(c.idx) && Field(r.0[1..], 1) == Some(payload)
    // what was received never changes who this client is
    ensures r.1.idx == c.idx
    ensures (forall i :: 0 <= i < |inbox| ==> |inbox[i]| > 0 && inbox[i][0] != 'B' && inbox[i][0] != 'D') ==>
      r.1.others.Keys == c.others.Keys
  {
    assert ':' !in payload ==>
      ParseInt(Split(UpdateFrame(c.idx, payload)[1..])[0]) == Some(c.idx)
      && Field(UpdateFrame(c.idx, payload)[1..], 1) == Some(payload) by {
      if ':' !in payload {
        FramedField("U", c.idx, payload);
      }
    }
    assert Drain(c, inbox, codec).idx == c.idx by {
      DrainKeepsIndex(c, inbox, codec);
    }
    assert (forall i :: 0 <= i < |inbox| ==> |inbox[i]| > 0 && inbox[i][0] != 'B' && inbox[i][0] != 'D') ==>
      Drain(c, inbox, codec).others.Keys == c.others.Keys by {
      if forall i :: 0 <= i < |inbox| ==> |inbox[i]| > 0 && inbox[i][0] != 'B' && inbox[i][0] != 'D' {
        DrainKeepsCrafts(c, inbox, codec);
      }
    }
    (UpdateFrame(c.idx, payload), Drain(c, inbox, codec))
  }

  // ---------------------------------------------------------------------
  // Round trips: what the peers write, the dispatch reads back
  // ---------------------------------------------------------------------

  lemma {:induction false} FramedField(tag: string, n: int, payload: string)
    requires |tag| == 1
    requires ':' !in payload
    ensures (tag + Decimal(n) + ":" + payload)[1..] == Decimal(n) + ":" + payload
    ensures Split((tag + Decimal(n) + ":" + payload)[1..]) == [Decimal(n), payload]
    ensures ParseInt(Split((tag + Decimal(n) + ":" + payload)[1..])[0]) == Some(n)
    ensures Field((tag + Decimal(n) + ":" + payload)[1..], 1) == Some(payload)
  {
    assert (tag + Decimal(n) + ":" + payload)[1..] == Decimal(n) + ":" + payload;
    SplitField(Decimal(n), payload);
    SplitColonFree(payload);
    ParseDecimal(n);
  }

  /** The index a client writes into its update is what `int()` reads before
      the first ':', whatever the payload holds. */
  lemma {:induction false} UpdateFrameIndex(idx: int, payload: string)
    ensures ParseInt(Split(UpdateFrame(idx, payload)[1..])[0]) == Some(idx)
  {
    var f := UpdateFrame(idx, payload);
    assert f[1..] == Decimal(idx) + ":" + payload;
    SplitField(Decimal(idx), payload);
    ParseDecimal(idx);
  }

  /** An update from a known craft replaces that proxy's pose wholesale and
      touches no other proxy; from an unknown craft it is dropped. */
  lemma {:induction false} UpdateRoundTrip(c: Client, idx: int, payload: string, fl: seq<real>, codec: Codec)
    requires ':' !in payload && codec.unpack(payload) == Some(fl) && |fl| >= 15
    ensures idx in c.others ==>
      Dispatch(c, UpdateFrame(idx, payload), codec)
        == Ok(c.(others := c.others[idx := c.others[idx].(pose := Some(PoseOf(fl)))]))
    ensures idx !in c.others ==>
      Dispatch(c, UpdateFrame(idx, payload), codec) == Err(UnknownCraft)
  {
    FramedField("U", idx, payload);
    var f := UpdateFrame(idx, payload);
    assert Dispatch(c, f, codec) == OnUpdate(c, f[1..], codec);
  }

  /** The welcome the server builds yields the index it allocated and the
      start pose it packed. */
  lemma {:induction false} WelcomeRoundTrip(index: int, payload: string, fl: seq<real>, codec: Codec)
    requires ':' !in payload && codec.unpack(payload) == Some(fl) && |fl| >= 7
    ensures ParseWelcome(WelcomeFrame(index, payload), codec) == Ok(Welcome(index, fl[..3], fl[3..]))
  {
    var f := WelcomeFrame(index, payload);
    FramedField("W", index, payload);
    assert f == "W" + Decimal(index) + ":" + payload;
    SplitField("W" + Decimal(index), payload);
    assert "W" + Decimal(index) + ":" + payload == "W" + Decimal(index) + ":" + payload;
    assert ':' !in "W" + Decimal(index);
    SplitColonFree(payload);
  }

  /** A birth notice creates (or replaces) exactly the proxy it names. */
  lemma {:induction false} BirthRoundTrip(c: Client, index: int, name: string, codec: Codec)
    requires ':' !in name && IsAscii(name)
    ensures Dispatch(c, BirthFrame(index, name), codec)
      == Ok(c.(others := c.others[index := Proxy(name, index, None)]))
  {
    var f := BirthFrame(index, name);
    DispatchByTag(c, f, codec);
    OnBirthParses(c, index, name);
  }

  lemma OnBirthParses(c: Client, index: int, name: string)
    requires ':' !in name && IsAscii(name)
    ensures OnBirth(c, BirthFrame(index, name)[1..]) == Ok(c.(others := c.others[index := Proxy(name, index, None)]))
  {
    FramedField("B", index, name);
    var rest := BirthFrame(index, name)[1..];
    assert Need(ParseInt(Split(rest)[0])) == Ok(index);
    assert Need(Field(rest, 1)) == Ok(name);
  }

  /** A death notice removes exactly the proxy it names; for an unknown
      index it is dropped. */
  lemma {:induction false} DeathRoundTrip(c: Client, index: int, codec: Codec)
    ensures index in c.others ==>
      Dispatch(c, DeathFrame(index), codec) == Ok(c.(others := c.others - {index}))
    ensures index !in c.others ==>
      Dispatch(c, DeathFrame(index), codec) == Err(UnknownCraft)
  {
    assert DeathFrame(index)[1..] == Decimal(index);
    ParseDecimal(index);
    assert Dispatch(c, DeathFrame(index), codec) == OnDeath(c, Decimal(index));
  }

  /** A wind frame of two floats overwrites the first two wind components,
      each truncated toward zero, and leaves the third; whole values come
      through exactly, fractional ones lose less than 1 toward zero. */
  lemma {:induction false} WindRoundTrip(c: Client, payload: string, north: real, east: real, codec: Codec)
    requires codec.unpack(payload) == Some([north, east])
    ensures Dispatch(c, WindFrame(payload), codec)
      == Ok(c.(wind := Wind(Trunc(north), Trunc(east), c.wind.down)))
    ensures north == north.Floor as real ==> Dispatch(c, WindFrame(payload), codec).value.wind.north == north.Floor
    ensures east == east.Floor as real ==> Dispatch(c, WindFrame(payload), codec).value.wind.east == east.Floor
  {
    assert WindFrame(payload)[1..] == payload;
    assert Dispatch(c, WindFrame(payload), codec) == OnWind(c, payload, codec);
  }

  /** A static-object frame with a colon-free ASCII name is recorded as
      that name and the packed numbers. */
  lemma {:induction false} ObjectRoundTrip(c: Client, name: string, xs: seq<real>, codec: Codec)
    requires ':' !in name && IsAscii(name)
    requires ':' !in codec.pack(xs) && codec.unpack(codec.pack(xs)) == Some(xs)
    ensures Dispatch(c, ObjectFrame(name, codec.pack(xs)), codec)
      == Ok(c.(objects := c.objects + [StaticObject(name, xs)]))
  {
    var payload := codec.pack(xs);
    var f := ObjectFrame(name, payload);
    assert f[1..] == name + ":" + payload;
    SplitField(name, payload);
    SplitColonFree(payload);
    assert Dispatch(c, f, codec) == OnObject(c, f[1..], codec);
  }

  /** An obstruction frame with a colon-free ASCII name and geometry is
      recorded as that name, geometry and the packed numbers. */
  lemma {:induction false} ObstructionRoundTrip(c: Client, name: string, geom: string, xs: seq<real>, codec: Codec)
    requires ':' !in name && IsAscii(name) && ':' !in geom && IsAscii(geom)
    requires ':' !in codec.pack(xs) && codec.unpack(codec.pack(xs)) == Some(xs)
    ensures Dispatch(c, ObstructionFrame(name, geom, codec.pack(xs)), codec)
      == Ok(c.(obstacles := c.obstacles + [Obstacle(name, geom, xs)]))
  {
    var payload := codec.pack(xs);
    var f := ObstructionFrame(name, geom, payload);
    assert f[1..] == name + ":" + (geom + ":" + payload);
    SplitField(name, geom + ":" + payload);
    SplitField(geom, payload);
    SplitColonFree(payload);
    assert Dispatch(c, f, codec) == OnObstruction(c, f[1..], codec);
  }

  /** Dispatch hands an 'S' frame to the event handler and an 'M' frame to
      the mark handler. */
  lemma DispatchByTag(c: Client, f: string, codec: Codec)
    requires |f| > 0
    ensures f[0] == 'U' ==> Dispatch(c, f, codec) == OnUpdate(c, f[1..], codec)
    ensures f[0] == 'D' ==> Dispatch(c, f, codec) == OnDeath(c, f[1..])
    ensures f[0] == 'B' ==> Dispatch(c, f, codec) == OnBirth(c, f[1..])
    ensures f[0] == 'E' ==> Dispatch(c, f, codec) == OnWind(c, f[1..], codec)
    ensures f[0] == 'S' ==> Dispatch(c, f, codec) == OnEvent(c, f, codec)
    ensures f[0] == 'M' ==> Dispatch(c, f, codec) == OnMark(c, f, codec)
  {
  }

  lemma EventFrameShape(e: SailMark.Event)
    ensures SailMark.EventFrame(e) == ['S', SailMark.EventKind(e)] + (Decimal(e.mark) + ":" + SailMark.EventValue(e))
  {
  }

  lemma {:induction false} OnEventParses(c: Client, k: char, mark: int, v: string, value: real, codec: Codec)
    requires ':' !in v && k as int < 128
    requires codec.number(v) == Some(value)
    ensures OnEvent(c, ['S', k] + (Decimal(mark) + ":" + v), codec)
      == Ok(c.(events := c.events + [SailEvent(k, mark, value)]))
  {
    var rest := Decimal(mark) + ":" + v;
    var f := ['S', k] + rest;
    assert |f| >= 2 && f[2..] == rest && f[1..2] == [k];
    var parts := Split(rest);
    assert parts == [Decimal(mark), v] by {
      SplitField(Decimal(mark), v);
      SplitColonFree(v);
    }
    assert Need(ParseInt(parts[0])) == Ok(mark) by {
      ParseDecimal(mark);
    }
    assert Text(f[1..2]) == Ok([k]);
    assert Need(codec.number(parts[1])) == Ok(value);
  }

  /** A race event frame is logged as (subtype, mark index, value) when its
      value text reads as a float: the penalty seconds, or the time. */
  lemma {:induction false} EventRoundTrip(c: Client, e: SailMark.Event, value: real, codec: Codec)
    requires ':' !in SailMark.EventValue(e)
    requires codec.number(SailMark.EventValue(e)) == Some(value)
    ensures Dispatch(c, SailMark.EventFrame(e), codec)
      == Ok(c.(events := c.events + [SailEvent(SailMark.EventKind(e), e.mark, value)]))
  {
    EventFrameShape(e);
    OnEventParses(c, SailMark.EventKind(e), e.mark, SailMark.EventValue(e), value, codec);
    DispatchByTag(c, SailMark.EventFrame(e), codec);
  }

  lemma {:induction false} OnMarkParses(c: Client, cmd: string, name: string, info: string,
                                        payload: string, coords: seq<real>, codec: Codec)
    requires ':' !in cmd && ':' !in name && ':' !in info && ':' !in payload
    requires IsAscii(cmd) && IsAscii(name) && IsAscii(info) && |cmd| >= 2
    requires codec.unpack(payload) == Some(coords)
    ensures OnMark(c, cmd + ":" + (name + ":" + (info + ":" + payload)), codec)
      == Ok(c.(marks := c.marks + [MarkInfo(cmd[1], name, info, coords)]))
  {
    var f := cmd + ":" + (name + ":" + (info + ":" + payload));
    assert Split(f) == [cmd, name, info, payload] by {
      SplitField(cmd, name + ":" + (info + ":" + payload));
      SplitField(name, info + ":" + payload);
      SplitField(info, payload);
      SplitColonFree(payload);
    }
  }

  /** A mark announcement is listed with the first character of its index,
      its name, info and position, provided name and info hold no ':'. */
  lemma {:induction false} MarkRoundTrip(c: Client, m: SailMark.RaceMark, index: int,
                                         coords: seq<real>, codec: Codec)
    requires ':' !in m.name && ':' !in m.info && IsAscii(m.name) && IsAscii(m.info)
    requires ':' !in codec.pack([m.x, m.y])
    requires codec.unpack(codec.pack([m.x, m.y])) == Some(coords)
    ensures Dispatch(c, SailMark.Transmit(m, index, codec), codec)
      == Ok(c.(marks := c.marks + [MarkInfo(Decimal(index)[0], m.name, m.info, coords)]))
  {
    var cmd := "M" + Decimal(index);
    var payload := codec.pack([m.x, m.y]);
    var f := SailMark.Transmit(m, index, codec);
    assert f == cmd + ":" + (m.name + ":" + (m.info + ":" + payload));
    assert IsAscii(cmd) && ':' !in cmd && cmd[1] == Decimal(index)[0];
    OnMarkParses(c, cmd, m.name, m.info, payload, coords, codec);
    DispatchByTag(c, f, codec);
  }
}
