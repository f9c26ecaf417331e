/** The race course as the server runs it: every position report of a craft
    is shown to each race mark in list order (server.py:200-203, and the
    demonstration loop of sailmark.py:236-239), and the events the marks
    raise are collected in that order. */
module Course {
  import opened Wrappers
  import opened SailMark

  /** What the marks make of one position: the contestant's state after
      them, the events raised in mark order, and whether a mark raised the
      TypeError of an avoid mark scored 'finish', which ends the pass at
      that mark. */
  datatype Pass = Pass(state: MarkState, events: seq<Event>, fault: bool)

  /** The seconds an event adds to the penalty total: an avoid mark's
      score, a rounded mark's score, nothing for the finish. */
  function Charge(marks: seq<RaceMark>, e: Event): int {
    match e
    case Penalty(_, p) => p
    case Rounded(i, _) =>
      if 0 <= i < |marks| && marks[i].score.Points? then marks[i].score.seconds else 0
    case Finished(_, _) => 0
  }

  function Charges(marks: seq<RaceMark>, events: seq<Event>): int
    decreases |events|
  {
    if |events| == 0 then 0
    else Charges(marks, events[..|events| - 1]) + Charge(marks, events[|events| - 1])
  }

  lemma {:induction false} ChargesAppend(marks: seq<RaceMark>, a: seq<Event>, b: seq<Event>)
    ensures Charges(marks, a + b) == Charges(marks, a) + Charges(marks, b)
    decreases |b|
  {
    if |b| == 0 {
      assert a + b == a;
    } else {
      assert (a + b)[..|a + b| - 1] == a + b[..|b| - 1];
      ChargesAppend(marks, a, b[..|b| - 1]);
    }
  }

  /** Mark-ordered events: each mark raises at most one event per position,
      so the mark indices of a pass strictly increase. */
  ghost predicate Increasing(events: seq<Event>) {
    forall j, k :: 0 <= j < k < |events| ==> events[j].mark < events[k].mark
  }

  /** One mark's verdict, with just the facts a pass is built from: the
      event names this mark and carries its charge, the passed index only
      grows and a progress event moves it onto this mark. */
  function Look(m: RaceMark, marks: seq<RaceMark>, s: MarkState, px: real, py: real, rtime: string, i: nat): (r: Step)
    requires i < |marks| && marks[i] == m
    ensures r.state.name == s.name && r.state.cid == s.cid
    ensures s.index <= r.state.index
    ensures forall j :: j != i ==> Stored(r.state, j) == Stored(s, j)
    ensures r.Step? && r.event.Some? ==> r.event.value.mark == i
    ensures r.Step? && r.event.Some? && r.event.value.Progress() ==> s.index < i == r.state.index
    ensures r.Step? && r.event.Some? ==> r.state.penalty == s.penalty + Charge(marks, r.event.value)
    ensures r.Step? && r.event.None? ==> r.state.penalty == s.penalty
    ensures r.ScoreFault? ==> m.rounding == Avoid && m.score == Finish
  {
    Update(m, s, px, py, i, rtime)
  }

  /** Putting mark `i`'s event in front of the events of the later marks
      keeps them mark-ordered and within bounds. */
  lemma Prepend(e: Event, rest: seq<Event>, i: int, n: int, lo: int, mid: int, hi: int)
    requires e.mark == i < n && lo <= mid <= hi
    requires forall k :: 0 <= k < |rest| ==> i < rest[k].mark < n
    requires Increasing(rest)
    requires forall k :: 0 <= k < |rest| && rest[k].Progress() ==> mid < rest[k].mark <= hi
    requires e.Progress() ==> lo < i == mid
    ensures forall k :: 0 <= k < |[e] + rest| ==> i <= ([e] + rest)[k].mark < n
    ensures Increasing([e] + rest)
    ensures forall k :: 0 <= k < |[e] + rest| && ([e] + rest)[k].Progress() ==> lo < ([e] + rest)[k].mark <= hi
  {
    var all := [e] + rest;
    assert forall k :: 1 <= k < |all| ==> all[k] == rest[k - 1];
  }

  /** Mark `i`'s event in front of the later marks' events: still ordered,
      within bounds, and charged in full. */
  lemma Extend(marks: seq<RaceMark>, e: Event, rest: seq<Event>, i: int,
               lo: int, mid: int, hi: int, p0: int, p1: int, p2: int)
    requires e.mark == i < |marks| && lo <= mid <= hi
    requires forall k :: 0 <= k < |rest| ==> i < rest[k].mark < |marks|
    requires Increasing(rest)
    requires forall k :: 0 <= k < |rest| && rest[k].Progress() ==> mid < rest[k].mark <= hi
    requires e.Progress() ==> lo < i == mid
    requires p1 == p0 + Charge(marks, e) && p2 == p1 + Charges(marks, rest)
    ensures forall k :: 0 <= k < |[e] + rest| ==> i <= ([e] + rest)[k].mark < |marks|
    ensures Increasing([e] + rest)
    ensures forall k :: 0 <= k < |[e] + rest| && ([e] + rest)[k].Progress() ==> lo < ([e] + rest)[k].mark <= hi
    ensures p2 == p0 + Charges(marks, [e] + rest)
  {
    Prepend(e, rest, i, |marks|, lo, mid, hi);
    ChargesAppend(marks, [e], rest);
    assert [e][..0] == [];
  }

  /** The marks from index `i` on see the position (px, py); `rtime` is the
      elapsed time a rounding or finish event reports. */
  function PassFrom(marks: seq<RaceMark>, s: MarkState, px: real, py: real, rtime: string, i: nat): (r: Pass)
    requires i <= |marks|
    ensures r.state.name == s.name && r.state.cid == s.cid
    ensures s.index <= r.state.index
    ensures forall j :: 0 <= j < i ==> Stored(r.state, j) == Stored(s, j)
    ensures forall k :: 0 <= k < |r.events| ==> i <= r.events[k].mark < |marks|
    ensures Increasing(r.events)
    ensures forall k :: 0 <= k < |r.events| && r.events[k].Progress() ==>
      s.index < r.events[k].mark <= r.state.index
    ensures r.state.penalty == s.penalty + Charges(marks, r.events)
    ensures r.fault ==> exists j :: i <= j < |marks| && marks[j].rounding == Avoid && marks[j].score == Finish
    ensures (forall j :: i <= j < |marks| ==> marks[j].score != Finish || marks[j].rounding != Avoid) ==> !r.fault
    decreases |marks| - i
  {
    if i == |marks| then Pass(s, [], false)
    else
      match Look(marks[i], marks, s, px, py, rtime, i)
      case ScoreFault(s1) => Pass(s1, [], true)
      case Step(s1, None) =>
        PassFrom(marks, s1, px, py, rtime, i + 1)
      case Step(s1, Some(e)) =>
        var rest := PassFrom(marks, s1, px, py, rtime, i + 1);
        Extend(marks, e, rest.events, i, s.index, s1.index, rest.state.index,
               s.penalty, s1.penalty, rest.state.penalty);
        Pass(rest.state, [e] + rest.events, rest.fault)
  }

  /** `for im, m in enumerate(marks): m.update(state, pos, im)`. */
  function PassAll(marks: seq<RaceMark>, s: MarkState, px: real, py: real, rtime: string): (r: Pass)
    ensures s.index <= r.state.index
    ensures Increasing(r.events)
    ensures forall k :: 0 <= k < |r.events| ==> 0 <= r.events[k].mark < |marks|
    ensures forall k :: 0 <= k < |r.events| && r.events[k].Progress() ==>
      s.index < r.events[k].mark <= r.state.index
    ensures r.state.penalty == s.penalty + Charges(marks, r.events)
    ensures r.fault ==> exists j :: 0 <= j < |marks| && marks[j].rounding == Avoid && marks[j].score == Finish
    ensures (forall j :: 0 <= j < |marks| ==> marks[j].score != Finish || marks[j].rounding != Avoid) ==> !r.fault
  {
    PassFrom(marks, s, px, py, rtime, 0)
  }

  /** A contestant's race: its positions one after the other, each shown to
      every mark; a fault ends the race at that position. */
  function Race(marks: seq<RaceMark>, s: MarkState, track: seq<(real, real)>, rtime: string): (r: Pass)
    decreases |track|
  {
    if |track| == 0 then Pass(s, [], false)
    else
      var p := PassAll(marks, s, track[0].0, track[0].1, rtime);
      if p.fault then p
      else
        var rest := Race(marks, p.state, track[1..], rtime);
        Pass(rest.state, p.events + rest.events, rest.fault)
  }

  /** Every progress event names a mark in (lo, hi]. */
  ghost predicate ProgressWithin(events: seq<Event>, lo: int, hi: int) {
    forall k :: 0 <= k < |events| && events[k].Progress() ==> lo < events[k].mark <= hi
  }

  /** The progress events name their marks in strictly increasing order. */
  ghost predicate ProgressOrdered(events: seq<Event>) {
    forall j, k :: 0 <= j < k < |events| && events[j].Progress() && events[k].Progress() ==>
      events[j].mark < events[k].mark
  }

  /** Two ordered runs of progress events, the second entirely above the
      first, make one ordered run. */
  lemma ProgressConcat(a: seq<Event>, b: seq<Event>, lo: int, mid: int, hi: int)
    requires ProgressWithin(a, lo, mid) && ProgressOrdered(a)
    requires ProgressWithin(b, mid, hi) && ProgressOrdered(b)
    requires lo <= mid <= hi
    ensures ProgressWithin(a + b, lo, hi) && ProgressOrdered(a + b)
  {
    var r := a + b;
    forall j, k | 0 <= j < k < |r| && r[j].Progress() && r[k].Progress()
      ensures r[j].mark < r[k].mark
    {
      if k < |a| {
        assert r[j] == a[j] && r[k] == a[k];
      } else if j < |a| {
        assert r[j] == a[j] && r[k] == b[k - |a|];
      } else {
        assert r[j] == b[j - |a|] && r[k] == b[k - |a|];
      }
    }
    forall k | 0 <= k < |r| && r[k].Progress()
      ensures lo < r[k].mark <= hi
    {
      if k < |a| {
        assert r[k] == a[k];
      } else {
        assert r[k] == b[k - |a|];
      }
    }
  }

  /** One pass's events are ordered, and its progress events lie between
      the index before and after it. */
  lemma PassInOrder(marks: seq<RaceMark>, s: MarkState, px: real, py: real, rtime: string)
    ensures ProgressWithin(PassAll(marks, s, px, py, rtime).events, s.index, PassAll(marks, s, px, py, rtime).state.index)
    ensures ProgressOrdered(PassAll(marks, s, px, py, rtime).events)
  {
  }

  /** The progress events of a whole race, rounding or finishing, name the
      marks in strictly increasing order, above the starting index and up
      to the final one: no mark is rounded twice and none out of order. */
  lemma {:induction false} RaceInOrder(marks: seq<RaceMark>, s: MarkState, track: seq<(real, real)>, rtime: string)
    ensures s.index <= Race(marks, s, track, rtime).state.index
    ensures ProgressWithin(Race(marks, s, track, rtime).events, s.index, Race(marks, s, track, rtime).state.index)
    ensures ProgressOrdered(Race(marks, s, track, rtime).events)
    decreases |track|
  {
    if |track| > 0 {
      var p := PassAll(marks, s, track[0].0, track[0].1, rtime);
      PassInOrder(marks, s, track[0].0, track[0].1, rtime);
      if !p.fault {
        var rest := Race(marks, p.state, track[1..], rtime);
        RaceInOrder(marks, p.state, track[1..], rtime);
        ProgressConcat(p.events, rest.events, s.index, p.state.index, rest.state.index);
      }
    }
  }

  /** Over a whole race the penalty total grows by exactly the charges of
      the events the contestant was sent. */
  lemma {:induction false} RaceCharges(marks: seq<RaceMark>, s: MarkState, track: seq<(real, real)>, rtime: string)
    ensures Race(marks, s, track, rtime).state.penalty == s.penalty + Charges(marks, Race(marks, s, track, rtime).events)
    decreases |track|
  {
    if |track| > 0 {
      var p := PassAll(marks, s, track[0].0, track[0].1, rtime);
      if !p.fault {
        RaceCharges(marks, p.state, track[1..], rtime);
        ChargesAppend(marks, p.events, Race(marks, p.state, track[1..], rtime).events);
      }
    }
  }
}
