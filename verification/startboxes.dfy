/** The start-box pool (startboxes.py): a FIFO list of free boxes and a map
    from craft id to the box that craft holds.

    Distances are compared squared against the squared release radius, so
    no square root is needed: both the distance and the radius are
    non-negative, and for those `d > r` exactly when `d*d > r*r`. */
module StartBoxes {
  import opened Wrappers

  /** A start box: its construction index `id`, centre, start heading as a
      quaternion, and squared release radius. The box's own occupant field
      is only ever written in the source, so it is not kept. */
  datatype StartBox = StartBox(id: nat, x: real, y: real, z: real, quat: seq<real>, rSq: real)

  /** Configuration of the row of boxes: the first box at (x0, y0, z0), each
      next one (dx0, dy0) further on; (qw, qz) are the cosine and sine of half
      the start heading. */
  datatype Layout = Layout(x0: real, y0: real, z0: real, qw: real, qz: real,
                           dx0: real, dy0: real, npositions: int)
  {
    /** `range(npositions)` is empty for a negative count. */
    function Count(): nat {
      if npositions < 0 then 0 else npositions
    }

    /** Square of half the spacing |(dx0, dy0)|. */
    function RadiusSq(): real {
      0.25 * (dx0 * dx0 + dy0 * dy0)
    }

    function BoxAt(i: nat): StartBox {
      StartBox(i, x0 + dx0 * i as real, y0 + dy0 * i as real, z0, [qw, 0.0, 0.0, qz], RadiusSq())
    }
  }

  datatype Pool = Pool(available: seq<StartBox>, taken: map<int, StartBox>)

  /** `ValueError` for a craft that already holds a box, `IndexError` when
      every box is taken. */
  datatype BoxError = DuplicateCraft | NoFreeBox

  datatype Assigned = Assigned(pool: Pool, start: seq<real>)

  /** `StartBoxes.__init__`: every box free, in construction order. Box `i`
      sits at (x0 + i*dx0, y0 + i*dy0, z0) and is released beyond half the
      spacing. */
  function NewPool(cfg: Layout): (p: Pool)
    ensures |p.available| == cfg.Count() && p.taken == map[]
    ensures forall i :: 0 <= i < |p.available| ==>
      && p.available[i].id == i
      && p.available[i].x == cfg.x0 + cfg.dx0 * i as real
      && p.available[i].y == cfg.y0 + cfg.dy0 * i as real
      && p.available[i].z == cfg.z0
      && 4.0 * p.available[i].rSq == cfg.dx0 * cfg.dx0 + cfg.dy0 * cfg.dy0
  {
    Pool(seq(cfg.Count(), i requires 0 <= i => cfg.BoxAt(i)), map[])
  }

  /** `StartBox.reserve`: the seven floats of the welcome, centre then
      heading quaternion. */
  function Reserve(b: StartBox): (start: seq<real>)
    ensures |start| == 3 + |b.quat|
    ensures start[..3] == [b.x, b.y, b.z] && start[3..] == b.quat
  {
    [b.x, b.y, b.z] + b.quat
  }

  /** `StartBox.update`: the position (px, py) is farther from the box
      centre than the release radius. */
  predicate Leaves(b: StartBox, px: real, py: real) {
    (b.x - px) * (b.x - px) + (b.y - py) * (b.y - py) > b.rSq
  }

  /** `StartBoxes.assign`: the duplicate check comes first, then the
      capacity check; on success the first free box goes to the craft. */
  function Assign(p: Pool, craft: int): (r: Result<Assigned, BoxError>)
    ensures craft in p.taken ==> r == Err(DuplicateCraft)
    ensures craft !in p.taken && |p.available| == 0 ==> r == Err(NoFreeBox)
    ensures r.Ok? <==> craft !in p.taken && |p.available| > 0
    ensures r.Ok? ==>
      && r.value.pool.available == p.available[1..]
      && r.value.pool.taken.Keys == p.taken.Keys + {craft}
      && r.value.pool.taken[craft] == p.available[0]
      && (forall c :: c in p.taken ==> r.value.pool.taken[c] == p.taken[c])
      && r.value.start == Reserve(p.available[0])
  {
    if craft in p.taken then Err(DuplicateCraft)
    else if |p.available| == 0 then Err(NoFreeBox)
    else
      var box := p.available[0];
      Ok(Assigned(Pool(p.available[1..], p.taken[craft := box]), Reserve(box)))
  }

  /** The held box goes back to the end of the free list. */
  function Release(p: Pool, craft: int): Pool
    requires craft in p.taken
  {
    Pool(p.available + [p.taken[craft]], p.taken - {craft})
  }

  /** `StartBoxes.update`: a craft that has left its box's circle gives the
      box back; anything else changes nothing. */
  function Update(p: Pool, craft: int, px: real, py: real): (r: Pool)
    ensures craft !in p.taken ==> r == p
    ensures craft in p.taken && !Leaves(p.taken[craft], px, py) ==> r == p
    ensures craft in p.taken && Leaves(p.taken[craft], px, py) ==>
      && r.available == p.available + [p.taken[craft]]
      && r.taken.Keys == p.taken.Keys - {craft}
      && (forall c :: c in r.taken ==> r.taken[c] == p.taken[c])
  {
    if craft in p.taken && Leaves(p.taken[craft], px, py) then Release(p, craft) else p
  }

  /** `StartBoxes.left`: the held box goes back whatever the position. */
  function Left(p: Pool, craft: int): (r: Pool)
    ensures craft !in p.taken ==> r == p
    ensures craft in p.taken ==>
      && r.available == p.available + [p.taken[craft]]
      && r.taken.Keys == p.taken.Keys - {craft}
      && (forall c :: c in r.taken ==> r.taken[c] == p.taken[c])
  {
    if craft in p.taken then Release(p, craft) else p
  }

  // ---------------------------------------------------------------------
  // Conservation
  // ---------------------------------------------------------------------

  /** Every box of the layout is either free or held, exactly once: the
      counts add up to the configured number, no box is both free and held,
      no two crafts share a box, and every box is the configured one. */
  ghost predicate Valid(p: Pool, cfg: Layout) {
    && |p.available| + |p.taken| == cfg.Count()
    && (forall i :: 0 <= i < |p.available| ==>
          p.available[i].id < cfg.Count() && p.available[i] == cfg.BoxAt(p.available[i].id))
    && (forall c :: c in p.taken ==>
          p.taken[c].id < cfg.Count() && p.taken[c] == cfg.BoxAt(p.taken[c].id))
    && (forall i, j :: 0 <= i < j < |p.available| ==> p.available[i].id != p.available[j].id)
    && (forall c, c' :: c in p.taken && c' in p.taken && c != c' ==> p.taken[c].id != p.taken[c'].id)
    && (forall i, c :: 0 <= i < |p.available| && c in p.taken ==> p.available[i].id != p.taken[c].id)
  }

  lemma NewPoolValid(cfg: Layout)
    ensures Valid(NewPool(cfg), cfg)
  {
  }

  lemma {:induction false} AssignValid(p: Pool, cfg: Layout, craft: int)
    requires Valid(p, cfg)
    ensures Assign(p, craft).Ok? ==> Valid(Assign(p, craft).value.pool, cfg)
  {
    if Assign(p, craft).Ok? {
      var q := Assign(p, craft).value.pool;
      assert |q.taken| == |p.taken| + 1 by {
        assert q.taken.Keys == p.taken.Keys + {craft};
      }
      assert forall i :: 0 <= i < |q.available| ==> q.available[i] == p.available[i + 1];
    }
  }

  lemma {:induction false} ReleaseValid(p: Pool, cfg: Layout, craft: int)
    requires Valid(p, cfg) && craft in p.taken
    ensures Valid(Release(p, craft), cfg)
  {
    var q := Release(p, craft);
    assert |q.taken| == |p.taken| - 1 by {
      assert q.taken.Keys == p.taken.Keys - {craft};
    }
    assert forall i :: 0 <= i < |p.available| ==> q.available[i] == p.available[i];
    assert q.available[|p.available|] == p.taken[craft];
  }

  /** One operation a server applies to the pool. */
  datatype PoolOp = AssignOp(craft: int) | UpdateOp(craft: int, px: real, py: real) | LeftOp(craft: int)

  /** The pool after one operation; a failed assign changes nothing. */
  function Apply(p: Pool, op: PoolOp): Pool {
    match op
    case AssignOp(c) => (match Assign(p, c) case Ok(a) => a.pool case Err(_) => p)
    case UpdateOp(c, px, py) => Update(p, c, px, py)
    case LeftOp(c) => Left(p, c)
  }

  function Run(p: Pool, ops: seq<PoolOp>): Pool
    decreases |ops|
  {
    if |ops| == 0 then p else Run(Apply(p, ops[0]), ops[1..])
  }

  /** Every sequence of assign/update/left calls from a fresh pool keeps the
      conservation invariant, so the number of held boxes never exceeds the
      configured count. */
  lemma {:induction false} RunValid(p: Pool, cfg: Layout, ops: seq<PoolOp>)
    requires Valid(p, cfg)
    ensures Valid(Run(p, ops), cfg)
    ensures |Run(p, ops).taken| <= cfg.Count()
    decreases |ops|
  {
    if |ops| > 0 {
      var q := Apply(p, ops[0]);
      match ops[0] {
        case AssignOp(c) => AssignValid(p, cfg, c);
        case UpdateOp(c, px, py) =>
          if c in p.taken && Leaves(p.taken[c], px, py) { ReleaseValid(p, cfg, c); }
        case LeftOp(c) => if c in p.taken { ReleaseValid(p, cfg, c); }
      }
      RunValid(q, cfg, ops[1..]);
    }
  }
}
