/** Concrete runs: the start-box demonstration of startboxes.py, and two
    discrepancies between the code and what it evidently intends, each with
    the input that shows it and the corrected behaviour. */
module Scenarios {
  import opened Wrappers
  import opened Wire
  import opened Frames
  import StartBoxes
  import SailMark
  import Server

  /** The demonstration's row: three boxes 10 m apart northwards and 2 m
      eastwards, starting at the origin. */
  function Demo(qw: real, qz: real): StartBoxes.Layout {
    StartBoxes.Layout(0.0, 0.0, 0.0, qw, qz, 10.0, 2.0, 3)
  }

  lemma DemoFill(qw: real, qz: real)
    ensures var b := Demo(qw, qz);
      && StartBoxes.NewPool(b) == StartBoxes.Pool([b.BoxAt(0), b.BoxAt(1), b.BoxAt(2)], map[])
      && StartBoxes.Assign(StartBoxes.Pool([b.BoxAt(0), b.BoxAt(1), b.BoxAt(2)], map[]), 0)
        == Ok(StartBoxes.Assigned(StartBoxes.Pool([b.BoxAt(1), b.BoxAt(2)], map[0 := b.BoxAt(0)]),
                                  StartBoxes.Reserve(b.BoxAt(0))))
      && StartBoxes.Assign(StartBoxes.Pool([b.BoxAt(1), b.BoxAt(2)], map[0 := b.BoxAt(0)]), 1)
        == Ok(StartBoxes.Assigned(StartBoxes.Pool([b.BoxAt(2)], map[0 := b.BoxAt(0), 1 := b.BoxAt(1)]),
                                  StartBoxes.Reserve(b.BoxAt(1))))
      && StartBoxes.Assign(StartBoxes.Pool([b.BoxAt(2)], map[0 := b.BoxAt(0), 1 := b.BoxAt(1)]), 2)
        == Ok(StartBoxes.Assigned(StartBoxes.Pool([], map[0 := b.BoxAt(0), 1 := b.BoxAt(1), 2 := b.BoxAt(2)]),
                                  StartBoxes.Reserve(b.BoxAt(2))))
  {
    var b := Demo(qw, qz);
    assert StartBoxes.NewPool(b).available == [b.BoxAt(0), b.BoxAt(1), b.BoxAt(2)];
    assert [b.BoxAt(0), b.BoxAt(1), b.BoxAt(2)][1..] == [b.BoxAt(1), b.BoxAt(2)];
    assert [b.BoxAt(1), b.BoxAt(2)][1..] == [b.BoxAt(2)];
  }

  lemma DemoCycle(qw: real, qz: real)
    ensures var b := Demo(qw, qz);
      var full := StartBoxes.Pool([], map[0 := b.BoxAt(0), 1 := b.BoxAt(1), 2 := b.BoxAt(2)]);
      && StartBoxes.Update(full, 0, 50.0, 0.0) == StartBoxes.Pool([b.BoxAt(0)], map[1 := b.BoxAt(1), 2 := b.BoxAt(2)])
      && StartBoxes.Assign(StartBoxes.Pool([b.BoxAt(0)], map[1 := b.BoxAt(1), 2 := b.BoxAt(2)]), 0)
        == Ok(StartBoxes.Assigned(full, StartBoxes.Reserve(b.BoxAt(0))))
      && StartBoxes.Left(full, 2) == StartBoxes.Pool([b.BoxAt(2)], map[0 := b.BoxAt(0), 1 := b.BoxAt(1)])
      && StartBoxes.Assign(StartBoxes.Pool([b.BoxAt(2)], map[0 := b.BoxAt(0), 1 := b.BoxAt(1)]), 16)
        == Ok(StartBoxes.Assigned(StartBoxes.Pool([], map[0 := b.BoxAt(0), 1 := b.BoxAt(1), 16 := b.BoxAt(2)]),
                                  StartBoxes.Reserve(b.BoxAt(2))))
  {
    var b := Demo(qw, qz);
    var full := StartBoxes.Pool([], map[0 := b.BoxAt(0), 1 := b.BoxAt(1), 2 := b.BoxAt(2)]);
    assert StartBoxes.Leaves(b.BoxAt(0), 50.0, 0.0);
    assert full.taken - {0} == map[1 := b.BoxAt(1), 2 := b.BoxAt(2)];
    assert full.taken - {2} == map[0 := b.BoxAt(0), 1 := b.BoxAt(1)];
    assert map[1 := b.BoxAt(1), 2 := b.BoxAt(2)][0 := b.BoxAt(0)] == full.taken;
    assert [] + [b.BoxAt(0)] == [b.BoxAt(0)] && [] + [b.BoxAt(2)] == [b.BoxAt(2)];
    assert [b.BoxAt(0)][1..] == [] && [b.BoxAt(2)][1..] == [];
  }

  /** startboxes.py:172-193: crafts 0, 1 and 2 take the three boxes in
      order, a second assign to 2 is a duplicate, craft 5 finds none free,
      craft 0 leaves its box by moving to (50, 0) and takes it again, craft
      2 gives its box up, and craft 16 gets that one. */
  lemma StartBoxDemo(qw: real, qz: real)
    ensures var p0 := StartBoxes.NewPool(Demo(qw, qz));
      var a0 := StartBoxes.Assign(p0, 0);
      a0.Ok? && a0.value.start == [0.0, 0.0, 0.0, qw, 0.0, 0.0, qz]
      && var a1 := StartBoxes.Assign(a0.value.pool, 1);
      a1.Ok? && a1.value.start[..3] == [10.0, 2.0, 0.0]
      && var a2 := StartBoxes.Assign(a1.value.pool, 2);
      a2.Ok? && a2.value.start[..3] == [20.0, 4.0, 0.0]
      && StartBoxes.Assign(a2.value.pool, 2) == Err(StartBoxes.DuplicateCraft)
      && StartBoxes.Assign(a2.value.pool, 5) == Err(StartBoxes.NoFreeBox)
      && var p3 := StartBoxes.Update(a2.value.pool, 0, 50.0, 0.0);
      p3.taken.Keys == {1, 2} && |p3.available| == 1
      && var a3 := StartBoxes.Assign(p3, 0);
      a3.Ok? && a3.value.start[..3] == [0.0, 0.0, 0.0]
      && var p4 := StartBoxes.Left(a3.value.pool, 2);
      p4.taken.Keys == {0, 1}
      && var a4 := StartBoxes.Assign(p4, 16);
      a4.Ok? && a4.value.start[..3] == [20.0, 4.0, 0.0] && a4.value.pool.taken.Keys == {0, 1, 16}
  {
    DemoFill(qw, qz);
    DemoCycle(qw, qz);
  }

  // ---------------------------------------------------------------------
  // A craft that leaves from its start box
  // ---------------------------------------------------------------------

  /** The server after the first craft ever to join (index 0, on connection
      `conn`) has said hello and been seated. */
  function FirstJoin(srv: Server.Server, conn: Server.ConnId, name: string, codec: Codec): Server.Seating
    requires srv.registry == []
  {
    Server.Seat(srv.(counter := srv.counter + 1), conn, srv.counter, name, codec)
  }

  /** As written, a lone craft that disconnects before leaving its start
      box keeps the box, and the counter is reset to zero: the next craft to
      join gets index 0 again and its `assign(0)` raises the duplicate
      ValueError, so it can never be seated. */
  lemma {:induction false} LoneDepartureClashesAsWritten(srv: Server.Server, sess: Server.Session,
                                                         conn: Server.ConnId, first: string, codec: Codec)
    requires |srv.registry| == 1 && srv.registry[0].conn == sess.conn
    requires 0 in srv.boxes.taken
    requires Server.Admit(Server.TeardownAsWritten(srv, sess).srv, first).Admitted?
    ensures Server.Admit(Server.TeardownAsWritten(srv, sess).srv, first).index == 0
    ensures Server.Seat(Server.Admit(Server.TeardownAsWritten(srv, sess).srv, first).srv, conn,
                        Server.Admit(Server.TeardownAsWritten(srv, sess).srv, first).index,
                        Server.Admit(Server.TeardownAsWritten(srv, sess).srv, first).name, codec).Clash?
  {
    assert sess.conn in Server.Conns(srv.registry);
    var rest := Server.Remove(srv.registry, sess.conn);
    assert srv.registry == [srv.registry[0]];
    assert forall e :: e in rest ==> e in srv.registry && e.conn != sess.conn;
  }

  /** The concrete input: one start box at the origin, craft "a" joins on
      connection 1 as index 0 and sends 'D' straight away; craft "b" then
      joins on connection 2 and, as written, clashes; with the box given
      back on teardown it is seated as index 0 in that same box. */
  lemma {:induction false} ReconnectScenario(codec: Codec)
    ensures var cfg := StartBoxes.Layout(0.0, 0.0, -0.8, 1.0, 0.0, 0.0, 0.0, 1);
      var srv0 := Server.NewServer([], [], StartBoxes.NewPool(cfg), "");
      var s1 := FirstJoin(srv0, 1, "a", codec);
      s1.Seated?
      && var t := Server.OnFrame(s1.srv, s1.sess, "D", codec, "");
      t.exit == Server.Departed
      && var gone := Server.TeardownAsWritten(t.srv, t.sess).srv;
      gone.counter == 0 && gone.registry == [] && 0 in gone.boxes.taken
      && Server.Admit(gone, "Bb") == Server.Admitted(gone.(counter := 1), 0, "b")
      && Server.Seat(gone.(counter := 1), 2, 0, "b", codec).Clash?
      && var fixed := Server.Teardown(t.srv, t.sess).srv;
      fixed.counter == 0 && fixed.registry == [] && fixed.boxes.taken == map[]
      && Server.Seat(fixed.(counter := 1), 2, 0, "b", codec).Seated?
  {
    var cfg := StartBoxes.Layout(0.0, 0.0, -0.8, 1.0, 0.0, 0.0, 0.0, 1);
    var srv0 := Server.NewServer([], [], StartBoxes.NewPool(cfg), "");
    assert srv0.boxes.available == [cfg.BoxAt(0)];
    var s1 := FirstJoin(srv0, 1, "a", codec);
    assert s1.srv.registry == [Server.Entry(1, 0, BirthFrame(0, "a"))];
    assert s1.srv.boxes.taken == map[0 := cfg.BoxAt(0)];
    assert Server.Conns(s1.srv.registry) == {1};
    var t := Server.OnFrame(s1.srv, s1.sess, "D", codec, "");
    assert t.srv == s1.srv && t.sess.conn == 1 && t.sess.index == 0;
    var rest := Server.Remove(s1.srv.registry, 1);
    assert rest == [];
    var gone := Server.TeardownAsWritten(t.srv, t.sess).srv;
    assert "Bb"[1..] == "b" && IsAscii("b");
    var fixed := Server.Teardown(t.srv, t.sess).srv;
    assert fixed.boxes == StartBoxes.Left(s1.srv.boxes, 0);
    assert fixed.boxes.available == [cfg.BoxAt(0)];
  }

  // ---------------------------------------------------------------------
  // The client's close frame
  // ---------------------------------------------------------------------

  /** As written the close frame is the literal text 'D{self.idx}' for every
      craft: it never names the craft, and its index field does not read as
      an integer. */
  lemma CloseFrameNamesNoCraft(idx: int)
    ensures CloseFrameAsWritten(idx) == CloseFrameAsWritten(idx + 1)
    ensures ParseInt(CloseFrameAsWritten(idx)[1..]) == None
  {
    TrimIdle(CloseFrameAsWritten(idx)[1..]);
  }

  /** The intended 'D<idx>' is the death notice of the craft: its index
      field reads back as `idx`, so distinct crafts send distinct frames. */
  lemma CloseFrameNamesCraft(idx: int, other: int)
    ensures ParseInt(CloseFrame(idx)[1..]) == Some(idx)
    ensures idx != other ==> CloseFrame(idx) != CloseFrame(other)
  {
    assert CloseFrame(idx)[1..] == Decimal(idx);
    assert CloseFrame(other)[1..] == Decimal(other);
    ParseDecimal(idx);
    ParseDecimal(other);
  }

  /** Either close frame ends the server's update loop, since the server
      reads only the tag: the discrepancy does not reach the server. */
  lemma CloseFrameEndsLoop(srv: Server.Server, sess: Server.Session, idx: int, codec: Codec, rtime: string)
    ensures Server.OnFrame(srv, sess, CloseFrameAsWritten(idx), codec, rtime).exit == Server.Departed
    ensures Server.OnFrame(srv, sess, CloseFrame(idx), codec, rtime).exit == Server.Departed
  {
  }
}
