/** A race mark and a contestant's progress relative to the marks of a race
    (sailmark.py): the mark's line and band forms, the per-contestant
    `MarkState`, and the crossing rule of `RaceMark.update`.

    The cosine and sine of the mark's radial are inputs (they are the only
    trigonometry involved), and so is the text of the elapsed race time that
    a rounding or finish event carries. */
module SailMark {
  import opened Wrappers
  import opened Wire

  /** How a mark is passed. Configured as text: 'ccw', 'near', 'no' (a
      penalty mark to keep clear of), and 'cw' or any other text, which
      behaves as 'cw'. */
  datatype Rounding = Cw | Ccw | Near | Avoid

  function RoundingOf(text: string): (r: Rounding)
    ensures r == Ccw <==> text == "ccw"
    ensures r == Near <==> text == "near"
    ensures r == Avoid <==> text == "no"
  {
    if text == "ccw" then Ccw
    else if text == "near" then Near
    else if text == "no" then Avoid
    else Cw
  }

  /** A mark's score: seconds added when it is rounded or hit, or the
      literal 'finish'. */
  datatype Score = Points(seconds: int) | Finish

  /** The affine form a*x + b*y + c on the plane. */
  datatype Form = Form(a: real, b: real, c: real) {
    function At(x: real, y: real): real {
      a * x + b * y + c
    }
  }

  datatype RaceMark = RaceMark(
    name: string, x: real, y: real, distance: real,
    rounding: Rounding, score: Score, info: string,
    lineeq: Form, area1: Form, area2: Form)

  /** `RaceMark.__init__` with cpsi, spsi the cosine and sine of the radial.
      The mark point lies on its own line and on the inner edge of the band:
      `area1` reads 0 there (or `distance` for a 'near' mark, whose band
      extends to both sides), `area2` reads `distance`. */
  function NewMark(name: string, x: real, y: real, cpsi: real, spsi: real,
                   distance: real, rounding: Rounding, score: Score,
                   info: string): (m: RaceMark)
    ensures m.lineeq.At(x, y) == 0.0
    ensures m.area1.At(x, y) == (if rounding == Near then distance else 0.0)
    ensures m.area2.At(x, y) == distance
    ensures m.name == name && m.x == x && m.y == y && m.info == info
    ensures m.distance == distance && m.rounding == rounding && m.score == score
  {
    var lineeq :=
      if rounding == Ccw then Form(spsi, -cpsi, -spsi * x + cpsi * y)
      else Form(-spsi, cpsi, spsi * x - cpsi * y);
    var area1 :=
      if rounding == Near then Form(cpsi, spsi, -cpsi * x - spsi * y + distance)
      else Form(cpsi, spsi, -cpsi * x - spsi * y);
    var area2 := Form(-cpsi, -spsi, cpsi * x + spsi * y + distance);
    RaceMark(name, x, y, distance, rounding, score, info, lineeq, area1, area2)
  }

  /** Signed distance of a position to the mark line. */
  function Distance(m: RaceMark, px: real, py: real): real {
    m.lineeq.At(px, py)
  }

  /** The position lies in the corridor along the mark's segment. */
  predicate InBand(m: RaceMark, px: real, py: real) {
    m.area1.At(px, py) > 0.0 && m.area2.At(px, py) > 0.0
  }

  /** A counter-clockwise mark reads the exact negation of the distance the
      same mark reads with any other rounding, everywhere on the plane, and
      its band is that of a clockwise mark. */
  lemma CcwNegatesLine(name: string, x: real, y: real, cpsi: real, spsi: real,
                       distance: real, score: Score, info: string,
                       other: Rounding, px: real, py: real)
    requires other != Ccw
    ensures
      var ccw := NewMark(name, x, y, cpsi, spsi, distance, Ccw, score, info);
      var alt := NewMark(name, x, y, cpsi, spsi, distance, other, score, info);
      Distance(ccw, px, py) == -Distance(alt, px, py)
    ensures
      var ccw := NewMark(name, x, y, cpsi, spsi, distance, Ccw, score, info);
      var cw := NewMark(name, x, y, cpsi, spsi, distance, Cw, score, info);
      InBand(ccw, px, py) <==> InBand(cw, px, py)
  {
  }

  /** With (cpsi, spsi) a unit heading, write a position in the mark's own
      frame: `t` metres along the radial from the mark point and `h` metres
      across it. Then the line form reads `h` (or `-h` for a ccw mark), and
      the position is in band exactly when `t` lies strictly inside the
      segment: (0, distance), or (-distance, distance) for a 'near' mark. */
  lemma {:induction false} MarkFrame(name: string, x: real, y: real, cpsi: real, spsi: real,
                  distance: real, rounding: Rounding, score: Score,
                  info: string, t: real, h: real)
    requires cpsi * cpsi + spsi * spsi == 1.0
    ensures
      var m := NewMark(name, x, y, cpsi, spsi, distance, rounding, score, info);
      var px := x + t * cpsi - h * spsi;
      var py := y + t * spsi + h * cpsi;
      && Distance(m, px, py) == (if rounding == Ccw then -h else h)
      && (InBand(m, px, py) <==>
            (if rounding == Near then -distance < t else 0.0 < t) && t < distance)
  {
    var m := NewMark(name, x, y, cpsi, spsi, distance, rounding, score, info);
    var px := x + t * cpsi - h * spsi;
    var py := y + t * spsi + h * cpsi;
    Rotate(x, y, cpsi, spsi, t, h);
    assert m.area2.At(px, py) == distance - t;
    assert m.area1.At(px, py) == (if rounding == Near then t + distance else t);
  }

  /** Coordinates of the point (t, h) of a unit-heading frame, read back by
      projection on the heading and on its normal. */
  lemma Rotate(x: real, y: real, c: real, s: real, t: real, h: real)
    requires c * c + s * s == 1.0
    ensures c * (x + t * c - h * s) + s * (y + t * s + h * c) == c * x + s * y + t
    ensures c * (y + t * s + h * c) - s * (x + t * c - h * s) == c * y - s * x + h
  {
    calc {
      c * (x + t * c - h * s) + s * (y + t * s + h * c);
      c * x + t * (c * c) - h * (c * s) + s * y + t * (s * s) + h * (s * c);
      c * x + s * y + t * (c * c + s * s);
    }
    calc {
      c * (y + t * s + h * c) - s * (x + t * c - h * s);
      c * y + t * (c * s) + h * (c * c) - s * x - t * (s * c) + h * (s * s);
      c * y - s * x + h * (c * c + s * s);
    }
  }

  // ---------------------------------------------------------------------
  // Progress state of one contestant
  // ---------------------------------------------------------------------

  /** `MarkState`: the last signed distance per mark index (absent reads
      as 0.0, which also stands for "not yet observed"), the index of the
      last mark passed, and the penalty total. The start time is not kept:
      the elapsed time is an input of `Update`. */
  datatype MarkState = MarkState(
    name: string, cid: int, d: map<int, real>, index: int, penalty: int)

  /** The stored distance for a mark, with the defaultdict's 0.0. */
  function Stored(s: MarkState, i: int): real {
    if i in s.d then s.d[i] else 0.0
  }

  /** `MarkState.start`: back before the start line with no penalty. */
  function Start(s: MarkState): (r: MarkState)
    ensures r.index == -1 && r.penalty == 0
    ensures r.name == s.name && r.cid == s.cid && r.d == s.d
  {
    s.(index := -1, penalty := 0)
  }

  /** `MarkState.__init__`: nothing observed yet. */
  function NewState(name: string, cid: int): (s: MarkState)
    ensures s.name == name && s.cid == cid
    ensures s.index == -1 && s.penalty == 0
    ensures forall i :: Stored(s, i) == 0.0
  {
    Start(MarkState(name, cid, map[], 0, 0))
  }

  /** What a mark reports: a penalty for hitting an avoid mark, or the
      elapsed time (as sent) for rounding or finishing. */
  datatype Event =
    | Penalty(mark: int, seconds: int)
    | Rounded(mark: int, time: string)
    | Finished(mark: int, time: string)
  {
    predicate Progress() {
      Rounded? || Finished?
    }
  }

  /** The outcome of one update. `ScoreFault` is the TypeError Python
      raises when an avoid mark whose score is 'finish' adds that score to
      the penalty; `state` is the state as mutated up to that point. */
  datatype Step = Step(state: MarkState, event: Option<Event>) | ScoreFault(state: MarkState)

  /** For an ordered mark: a position worth evaluating. Exact zeros, positions
      off the band and marks other than the next expected one are skipped. */
  predicate Eligible(m: RaceMark, s: MarkState, px: real, py: real, index: int) {
    Distance(m, px, py) != 0.0 && InBand(m, px, py) && index == s.index + 1
  }

  /** For an avoid mark: the position is in band and on the other side of the
      line from the last stored reading. */
  predicate Flips(m: RaceMark, s: MarkState, px: real, py: real, index: int) {
    InBand(m, px, py) && Stored(s, index) * Distance(m, px, py) < 0.0
  }

  /** Mark `index` auto-advances the passed index when it is the next one. */
  function Advanced(s: MarkState, index: int): int {
    if s.index == index - 1 then index else s.index
  }

  /** Store a new reading, except an exact zero. */
  function Keep(s: MarkState, index: int, d: real): MarkState {
    if d != 0.0 then s.(d := s.d[index := d]) else s
  }

  /** `RaceMark.update(state, pos, index)` for the position (px, py), with
      `rtime` the elapsed time as written into a rounding or finish event. */
  function Update(m: RaceMark, s: MarkState, px: real, py: real, index: int,
                  rtime: string): (r: Step)
    // every update: the passed index stays, or moves up by one onto this mark
    ensures r.state.index == s.index || (index == s.index + 1 && r.state.index == index)
    ensures r.state.name == s.name && r.state.cid == s.cid
    ensures forall j :: j != index ==> Stored(r.state, j) == Stored(s, j)
    ensures r.state.penalty < s.penalty ==> m.score.Points? && m.score.seconds < 0
    ensures r.ScoreFault? ==> m.rounding == Avoid && m.score == Finish
    // ordered marks
    ensures m.rounding != Avoid && !Eligible(m, s, px, py, index) ==> r == Step(s, None)
    ensures m.rounding != Avoid && Eligible(m, s, px, py, index) ==>
      r.Step? && Stored(r.state, index) == Distance(m, px, py)
    ensures m.rounding != Avoid && Eligible(m, s, px, py, index) && Stored(s, index) == 0.0 ==>
      r.event == None && r.state.index == s.index && r.state.penalty == s.penalty
    ensures m.rounding != Avoid ==>
      (r.event.Some? <==>
        Eligible(m, s, px, py, index) && Stored(s, index) < 0.0 && Distance(m, px, py) > 0.0)
    ensures m.rounding != Avoid && r.event.None? ==>
      r.state.index == s.index && r.state.penalty == s.penalty
    ensures m.rounding != Avoid && r.event.Some? ==>
      && r.state.index == index
      && (m.score == Finish ==>
            r.event == Some(Finished(index, rtime)) && r.state.penalty == s.penalty)
      && (m.score.Points? ==>
            r.event == Some(Rounded(index, rtime)) && r.state.penalty == s.penalty + m.score.seconds)
    // avoid marks
    ensures m.rounding == Avoid && Stored(s, index) == 0.0 ==>
      r.Step? && r.event == None && r.state.index == s.index && r.state.penalty == s.penalty
      && Stored(r.state, index) == Distance(m, px, py)
    ensures m.rounding == Avoid && Stored(s, index) != 0.0 ==>
      && r.state.index == Advanced(s, index)
      && (r.ScoreFault? <==> Flips(m, s, px, py, index) && m.score == Finish)
      && (r.Step? ==>
            && (r.event.Some? <==> Flips(m, s, px, py, index))
            && (r.event.Some? ==>
                  r.event == Some(Penalty(index, m.score.seconds))
                  && r.state.penalty == s.penalty + m.score.seconds)
            && (r.event.None? ==> r.state.penalty == s.penalty)
            && Stored(r.state, index) ==
                 (if Distance(m, px, py) != 0.0 then Distance(m, px, py) else Stored(s, index)))
  {
    var d := Distance(m, px, py);
    if m.rounding == Avoid then
      if Stored(s, index) == 0.0 then
        Step(s.(d := s.d[index := d]), None)
      else
        var s1 := s.(index := Advanced(s, index));
        if Flips(m, s, px, py, index) then
          match m.score
          case Finish => ScoreFault(s1)
          case Points(p) =>
            Step(Keep(s1.(penalty := s1.penalty + p), index, d), Some(Penalty(index, p)))
        else
          Step(Keep(s1, index, d), None)
    else if !Eligible(m, s, px, py, index) then
      Step(s, None)
    else if Stored(s, index) == 0.0 then
      Step(s.(d := s.d[index := d]), None)
    else if Stored(s, index) < 0.0 && d > 0.0 then
      var s1 := s.(index := index, d := s.d[index := d]);
      match m.score
      case Finish => Step(s1, Some(Finished(index, rtime)))
      case Points(p) => Step(s1.(penalty := s1.penalty + p), Some(Rounded(index, rtime)))
    else
      Step(s.(d := s.d[index := d]), None)
  }

  // ---------------------------------------------------------------------
  // Frames a mark produces
  // ---------------------------------------------------------------------

  /** `RaceMark.transmit(index)`: 'M<index>:<name>:<info>:' and the packed
      mark position. */
  function Transmit(m: RaceMark, index: int, codec: Codec): string {
    "M" + Decimal(index) + ":" + m.name + ":" + m.info + ":" + codec.pack([m.x, m.y])
  }

  /** The race event frames: 'SP<mark>:<seconds>', 'SR<mark>:<time>' and
      'SF<mark>:<time>'. */
  function EventFrame(e: Event): string {
    match e
    case Penalty(i, p) => "SP" + Decimal(i) + ":" + Decimal(p)
    case Rounded(i, t) => "SR" + Decimal(i) + ":" + t
    case Finished(i, t) => "SF" + Decimal(i) + ":" + t
  }

  /** The subtype letter and value text an event frame carries. */
  function EventKind(e: Event): char {
    match e
    case Penalty(_, _) => 'P'
    case Rounded(_, _) => 'R'
    case Finished(_, _) => 'F'
  }

  function EventValue(e: Event): string {
    match e
    case Penalty(_, p) => Decimal(p)
    case Rounded(_, t) => t
    case Finished(_, t) => t
  }
}
