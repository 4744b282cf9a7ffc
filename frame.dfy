/** One simulation step: movement intents and gravity move the player, the
    contact flags are cleared, and each obstacle in list order is tested
    against the player and, on a hit, the player is pushed out along the
    minimum translation vector, landing on it when pushed straight up. */
module Frame {
  import opened Vectors
  import opened Colliders
  import opened Sat
  import opened Players

  /** The movement keys held this frame (D, A, W, S and space). */
  datatype Intents = Intents(right: bool, left: bool, forward: bool, back: bool, jump: bool)

  /** The player's box apart from its centre, which the pass moves. */
  datatype Shape = Shape(half: Vec3, rot: Matrix)

  /** What resolving one obstacle did: nothing, or a push by `translation`
      along the reported minimum translation vector. */
  datatype Contact = Miss | Hit(mtv: Mtv, translation: Vec3)

  datatype Outcome = Outcome(kin: Kin, contact: Contact)

  /** The displacement a contact applied. */
  function Push(c: Contact): Vec3 {
    if c.Hit? then c.translation else Zero
  }

  /** Where the player ends up after a pass, and one contact per obstacle. */
  datatype PassResult = PassResult(kin: Kin, contacts: seq<Contact>)

  function PlayerBox(k: Kin, s: Shape): Box {
    Box(k.pos, s.half, s.rot)
  }

  /** Horizontal displacement for one frame: right and left cancel, as do
      back and forward; nothing moves vertically. */
  function Movement(i: Intents, dt: real): (m: Vec3)
    ensures m.y == 0.0
    ensures i.right == i.left ==> m.x == 0.0
    ensures i.right && !i.left ==> m.x == MoveSpeed * dt
    ensures i.left && !i.right ==> m.x == -(MoveSpeed * dt)
    ensures i.forward == i.back ==> m.z == 0.0
    ensures i.back && !i.forward ==> m.z == MoveSpeed * dt
    ensures i.forward && !i.back ==> m.z == -(MoveSpeed * dt)
  {
    var x0 := if i.right then MoveSpeed * dt else 0.0;
    var x := if i.left then x0 - MoveSpeed * dt else x0;
    var z0 := if i.forward then 0.0 - MoveSpeed * dt else 0.0;
    var z := if i.back then z0 + MoveSpeed * dt else z0;
    Vec3(x, 0.0, z)
  }

  /** A contact that lands the player: the push was along the vertical axis
      and upwards. */
  predicate Grounds(c: Contact): (r: bool)
    ensures r ==> c.Hit? && Push(c).y > 0.0
    ensures c.Hit? && IsWorldAxis(c.mtv.axis) ==> (r <==> c.mtv.axis == YAxis && c.translation.y > 0.0)
  {
    c.Hit? && c.mtv.axis.y == 1.0 && c.translation.y > 0.0
  }

  /** The push out of an obstacle: `depth` along the axis, turned round when
      the player's centre lies on the negative side of the obstacle's. The
      axis is a unit world axis, so normalising it changes nothing. */
  function Translation(playerPos: Vec3, obstaclePos: Vec3, m: Mtv): (t: Vec3)
    ensures t == Scale(m.axis, m.depth) || t == Negate(Scale(m.axis, m.depth))
  {
    var t := Scale(m.axis, m.depth);
    if Dot(Sub(playerPos, obstaclePos), m.axis) < 0.0 then Negate(t) else t
  }

  /** Along a world axis, the push moves the player's centre away from the
      obstacle's by exactly the depth. */
  lemma TranslationMovesAway(playerPos: Vec3, obstaclePos: Vec3, m: Mtv)
    requires IsWorldAxis(m.axis) && m.depth >= 0.0
    ensures var t := Translation(playerPos, obstaclePos, m);
      Abs(Dot(Sub(Add(playerPos, t), obstaclePos), m.axis)) ==
      Abs(Dot(Sub(playerPos, obstaclePos), m.axis)) + m.depth
    ensures Dot(Sub(playerPos, obstaclePos), m.axis) == 0.0 ==>
      Translation(playerPos, obstaclePos, m) == Scale(m.axis, m.depth)
  {
    if m.axis == XAxis {
      assert m == Mtv(XAxis, m.depth);
      PushAlong(playerPos, obstaclePos, 0, m.depth);
    } else if m.axis == YAxis {
      assert m == Mtv(YAxis, m.depth);
      PushAlong(playerPos, obstaclePos, 1, m.depth);
    } else {
      assert m == Mtv(ZAxis, m.depth);
      PushAlong(playerPos, obstaclePos, 2, m.depth);
    }
  }

  /** The three cases of `TranslationMovesAway`, one per world axis: `k`
      numbers the axis as the overlap test visits them. */
  lemma PushAlong(playerPos: Vec3, obstaclePos: Vec3, k: nat, depth: real)
    requires k < 3 && depth >= 0.0
    ensures k == 0 ==> var t := Translation(playerPos, obstaclePos, Mtv(XAxis, depth));
      Abs(Dot(Sub(Add(playerPos, t), obstaclePos), XAxis)) == Abs(Dot(Sub(playerPos, obstaclePos), XAxis)) + depth
    ensures k == 1 ==> var t := Translation(playerPos, obstaclePos, Mtv(YAxis, depth));
      Abs(Dot(Sub(Add(playerPos, t), obstaclePos), YAxis)) == Abs(Dot(Sub(playerPos, obstaclePos), YAxis)) + depth
    ensures k == 2 ==> var t := Translation(playerPos, obstaclePos, Mtv(ZAxis, depth));
      Abs(Dot(Sub(Add(playerPos, t), obstaclePos), ZAxis)) == Abs(Dot(Sub(playerPos, obstaclePos), ZAxis)) + depth
  {
    var d := Sub(playerPos, obstaclePos);
    DotWorldAxes(d);
    ScaleWorldAxes(depth);
    if k == 0 {
      var t := Translation(playerPos, obstaclePos, Mtv(XAxis, depth));
      DotWorldAxes(Sub(Add(playerPos, t), obstaclePos));
      assert t == Vec3(if d.x < 0.0 then -depth else depth, 0.0, 0.0);
    } else if k == 1 {
      var t := Translation(playerPos, obstaclePos, Mtv(YAxis, depth));
      DotWorldAxes(Sub(Add(playerPos, t), obstaclePos));
      assert t == Vec3(0.0, if d.y < 0.0 then -depth else depth, 0.0);
    } else {
      var t := Translation(playerPos, obstaclePos, Mtv(ZAxis, depth));
      DotWorldAxes(Sub(Add(playerPos, t), obstaclePos));
      assert t == Vec3(0.0, 0.0, if d.z < 0.0 then -depth else depth);
    }
  }

  /** Tests the player against one obstacle and, on a hit, pushes it out;
      a push straight up lands it and stops its vertical motion. */
  function Resolve(k: Kin, s: Shape, o: Box): (r: Outcome)
    ensures Collision(PlayerBox(k, s), o).None? ==> r == Outcome(k, Miss)
    ensures Collision(PlayerBox(k, s), o).Some? ==>
      r.contact.Hit? && r.contact.mtv == Collision(PlayerBox(k, s), o).value
    ensures r.contact.Hit? ==> r.contact.translation == Translation(k.pos, o.pos, r.contact.mtv)
    ensures r.kin.pos == Add(k.pos, Push(r.contact))
    ensures r.kin.grounded == (k.grounded || Grounds(r.contact))
    ensures r.kin.vel == if Grounds(r.contact) then k.vel.(y := 0.0) else k.vel
  {
    match Collision(PlayerBox(k, s), o)
    case None =>
      assert Add(k.pos, Zero) == k.pos;
      Outcome(k, Miss)
    case Some(m) =>
      var t := Translation(k.pos, o.pos, m);
      var moved := k.(pos := Add(k.pos, t));
      if m.axis.y == 1.0 && t.y > 0.0 then
        Outcome(moved.(grounded := true, vel := k.vel.(y := 0.0)), Hit(m, t))
      else
        Outcome(moved, Hit(m, t))
  }

  /** After the push the player only touches the obstacle: the overlap on the
      reported axis is exactly zero, so testing again reports no collision. */
  lemma ResolutionSeparates(k: Kin, s: Shape, o: Box)
    requires Collision(PlayerBox(k, s), o).Some?
    ensures var m := Collision(PlayerBox(k, s), o).value;
      Overlap(PlayerBox(Resolve(k, s, o).kin, s), o, m.axis) == 0.0
    ensures Collision(PlayerBox(Resolve(k, s, o).kin, s), o).None?
  {
    var m := Collision(PlayerBox(k, s), o).value;
    var k' := Resolve(k, s, o).kin;
    var t := Translation(k.pos, o.pos, m);
    assert k'.pos == Add(k.pos, t);
    CollisionIsMinAxis(PlayerBox(k, s), o);
    TranslationMovesAway(k.pos, o.pos, m);
    DotSubAntisymmetric(o.pos, k.pos, m.axis);
    DotSubAntisymmetric(o.pos, k'.pos, m.axis);
    var before := Overlap(PlayerBox(k, s), o, m.axis);
    assert m.depth == before;
    assert Overlap(PlayerBox(k', s), o, m.axis) == before - m.depth;
    assert Separated(PlayerBox(k', s), o);
  }

  /** A single resolution lands the player exactly when the reported axis is
      the vertical one and the player's centre is not below the obstacle's. */
  lemma GroundsOnlyFromAbove(k: Kin, s: Shape, o: Box)
    ensures Grounds(Resolve(k, s, o).contact) <==>
      Collision(PlayerBox(k, s), o).Some? &&
      Collision(PlayerBox(k, s), o).value.axis == YAxis && k.pos.y >= o.pos.y
  {
    var c := Collision(PlayerBox(k, s), o);
    if c.Some? {
      var m := c.value;
      DotWorldAxes(Sub(k.pos, o.pos));
      var t := Resolve(k, s, o).contact.translation;
      assert t == Translation(k.pos, o.pos, m);
      if m.axis == YAxis {
        assert Dot(Sub(k.pos, o.pos), m.axis) == k.pos.y - o.pos.y;
      } else {
        assert m.axis.y == 0.0;
      }
    }
  }

  /** Obstacles resolved in list order by `step`, each against the position
      the previous one left. */
  function Fold<O>(step: (Kin, O) -> Outcome, k: Kin, obs: seq<O>): (r: PassResult)
    ensures |r.contacts| == |obs|
    decreases |obs|
  {
    if obs == [] then PassResult(k, [])
    else
      var first := step(k, obs[0]);
      var rest := Fold(step, first.kin, obs[1..]);
      PassResult(rest.kin, [first.contact] + rest.contacts)
  }

  /** The obstacle pass of one frame. */
  function Pass(k: Kin, s: Shape, obs: seq<Box>): (r: PassResult)
    ensures |r.contacts| == |obs|
  {
    Fold((k': Kin, o: Box) => Resolve(k', s, o), k, obs)
  }

  predicate AnyGrounds(cs: seq<Contact>) {
    exists i :: 0 <= i < |cs| && Grounds(cs[i])
  }

  predicate AnyHit(cs: seq<Contact>) {
    exists i :: 0 <= i < |cs| && cs[i].Hit?
  }

  /** The sum of the pushes applied. */
  function TotalPush(cs: seq<Contact>): Vec3 {
    if cs == [] then Zero
    else Add(Push(cs[0]), TotalPush(cs[1..]))
  }

  lemma AppendAssoc<T>(a: seq<T>, b: seq<T>, c: seq<T>)
    ensures a + (b + c) == (a + b) + c
  {
  }

  /** Splitting the obstacle list splits the fold: the second part starts
      from where the first left the player. */
  lemma {:induction false} FoldSplit<O>(step: (Kin, O) -> Outcome, k: Kin, obs1: seq<O>, obs2: seq<O>)
    ensures var r1 := Fold(step, k, obs1);
      var r2 := Fold(step, r1.kin, obs2);
      Fold(step, k, obs1 + obs2) == PassResult(r2.kin, r1.contacts + r2.contacts)
    decreases |obs1|
  {
    if obs1 != [] {
      var first := step(k, obs1[0]);
      var tail1 := Fold(step, first.kin, obs1[1..]);
      var r2 := Fold(step, tail1.kin, obs2);
      assert (obs1 + obs2)[0] == obs1[0];
      assert (obs1 + obs2)[1..] == obs1[1..] + obs2;
      FoldSplit(step, first.kin, obs1[1..], obs2);
      AppendAssoc([first.contact], tail1.contacts, r2.contacts);
    } else {
      assert obs1 + obs2 == obs2;
    }
  }

  /** A step that lands the player exactly on a grounding contact makes the
      fold end grounded exactly when it started so or some contact grounds. */
  lemma {:induction false} FoldGrounding<O>(step: (Kin, O) -> Outcome, k: Kin, obs: seq<O>)
    requires forall k': Kin, o: O :: step(k', o).kin.grounded == (k'.grounded || Grounds(step(k', o).contact))
    ensures Fold(step, k, obs).kin.grounded <==> k.grounded || AnyGrounds(Fold(step, k, obs).contacts)
    decreases |obs|
  {
    if obs != [] {
      var first := step(k, obs[0]);
      var rest := Fold(step, first.kin, obs[1..]);
      FoldGrounding(step, first.kin, obs[1..]);
      var cs := Fold(step, k, obs).contacts;
      assert cs == [first.contact] + rest.contacts;
      if AnyGrounds(rest.contacts) {
        var j :| 0 <= j < |rest.contacts| && Grounds(rest.contacts[j]);
        assert cs[j + 1] == rest.contacts[j];
      }
      if AnyGrounds(cs) {
        var j :| 0 <= j < |cs| && Grounds(cs[j]);
        if j > 0 { assert rest.contacts[j - 1] == cs[j]; }
      }
      assert Grounds(first.contact) ==> Grounds(cs[0]);
    }
  }

  /** A step that zeroes the vertical speed exactly on a grounding contact
      makes the fold do so exactly when some contact grounds. */
  lemma {:induction false} FoldVelocity<O>(step: (Kin, O) -> Outcome, k: Kin, obs: seq<O>)
    requires forall k': Kin, o: O ::
      step(k', o).kin.vel == if Grounds(step(k', o).contact) then k'.vel.(y := 0.0) else k'.vel
    ensures Fold(step, k, obs).kin.vel ==
      if AnyGrounds(Fold(step, k, obs).contacts) then k.vel.(y := 0.0) else k.vel
    decreases |obs|
  {
    if obs != [] {
      var first := step(k, obs[0]);
      var rest := Fold(step, first.kin, obs[1..]);
      FoldVelocity(step, first.kin, obs[1..]);
      var cs := Fold(step, k, obs).contacts;
      assert cs == [first.contact] + rest.contacts;
      if AnyGrounds(rest.contacts) {
        var j :| 0 <= j < |rest.contacts| && Grounds(rest.contacts[j]);
        assert cs[j + 1] == rest.contacts[j];
      }
      if AnyGrounds(cs) {
        var j :| 0 <= j < |cs| && Grounds(cs[j]);
        if j > 0 { assert rest.contacts[j - 1] == cs[j]; }
      }
      assert Grounds(first.contact) ==> Grounds(cs[0]);
    }
  }

  /** A step that moves the player by its contact's push makes the fold move
      it by the sum of the pushes. */
  lemma {:induction false} FoldPosition<O>(step: (Kin, O) -> Outcome, k: Kin, obs: seq<O>)
    requires forall k': Kin, o: O :: step(k', o).kin.pos == Add(k'.pos, Push(step(k', o).contact))
    ensures Fold(step, k, obs).kin.pos == Add(k.pos, TotalPush(Fold(step, k, obs).contacts))
    decreases |obs|
  {
    if obs != [] {
      var first := step(k, obs[0]);
      var rest := Fold(step, first.kin, obs[1..]);
      FoldPosition(step, first.kin, obs[1..]);
      var cs := Fold(step, k, obs).contacts;
      assert cs == [first.contact] + rest.contacts;
      assert cs[0] == first.contact && cs[1..] == rest.contacts;
      assert TotalPush(cs) == Add(Push(first.contact), TotalPush(rest.contacts));
      assert first.kin.pos == Add(k.pos, Push(first.contact));
      AddAssociative(k.pos, Push(first.contact), TotalPush(rest.contacts));
    }
  }

  /** The pass over a non-empty list resolves the first obstacle, then the
      rest from where the first left the player. */
  lemma PassCons(k: Kin, s: Shape, obs: seq<Box>)
    requires obs != []
    ensures var first := Resolve(k, s, obs[0]);
      var rest := Pass(first.kin, s, obs[1..]);
      Pass(k, s, obs) == PassResult(rest.kin, [first.contact] + rest.contacts)
  {
  }

  /** One more obstacle of the pass resolved: what remains of the pass after
      obstacle `i` starts from where resolving it left the player. */
  lemma PassAdvance(k: Kin, s: Shape, obs: seq<Box>, i: nat, contacts: seq<Contact>)
    requires i < |obs|
    ensures var out := Resolve(k, s, obs[i]);
      var rest := Pass(out.kin, s, obs[i + 1..]);
      Pass(k, s, obs[i..]).kin == rest.kin &&
      contacts + Pass(k, s, obs[i..]).contacts == (contacts + [out.contact]) + rest.contacts
  {
    PassCons(k, s, obs[i..]);
    assert obs[i..][0] == obs[i] && obs[i..][1..] == obs[i + 1..];
    AppendAssoc(contacts, [Resolve(k, s, obs[i]).contact], Pass(Resolve(k, s, obs[i]).kin, s, obs[i + 1..]).contacts);
  }

  /** Splitting the obstacle list splits the pass. */
  lemma PassSplit(k: Kin, s: Shape, obs1: seq<Box>, obs2: seq<Box>)
    ensures var r1 := Pass(k, s, obs1);
      var r2 := Pass(r1.kin, s, obs2);
      Pass(k, s, obs1 + obs2) == PassResult(r2.kin, r1.contacts + r2.contacts)
  {
    FoldSplit((k': Kin, o: Box) => Resolve(k', s, o), k, obs1, obs2);
  }

  /** Contact `i` is what resolving obstacle `i` gives from the position the
      first `i` obstacles left, and right after it the player no longer
      overlaps that obstacle. */
  lemma {:induction false} PassContactAt(k: Kin, s: Shape, obs: seq<Box>, i: nat)
    requires i < |obs|
    ensures var before := Pass(k, s, obs[..i]).kin;
      Pass(k, s, obs).contacts[i] == Resolve(before, s, obs[i]).contact
    ensures Pass(k, s, obs).contacts[i].Hit? ==>
      Collision(PlayerBox(Pass(k, s, obs[..i + 1]).kin, s), obs[i]).None?
  {
    var before := Pass(k, s, obs[..i]).kin;
    PassSplit(k, s, obs[..i], obs[i..]);
    assert obs[..i] + obs[i..] == obs;
    PassCons(before, s, obs[i..]);
    assert obs[i..][0] == obs[i];
    PassSplit(k, s, obs[..i], [obs[i]]);
    assert obs[..i] + [obs[i]] == obs[..i + 1];
    PassCons(before, s, [obs[i]]);
    assert [obs[i]][1..] == [];
    if Resolve(before, s, obs[i]).contact.Hit? {
      ResolutionSeparates(before, s, obs[i]);
    }
  }

  /** The pass leaves the player grounded exactly when it started grounded
      or some contact pushed it straight up. */
  lemma PassGrounding(k: Kin, s: Shape, obs: seq<Box>)
    ensures Pass(k, s, obs).kin.grounded <==> k.grounded || AnyGrounds(Pass(k, s, obs).contacts)
  {
    FoldGrounding((k': Kin, o: Box) => Resolve(k', s, o), k, obs);
  }

  /** The pass zeroes the vertical speed exactly when some contact pushed the
      player straight up; otherwise the velocity is untouched. */
  lemma PassVelocity(k: Kin, s: Shape, obs: seq<Box>)
    ensures Pass(k, s, obs).kin.vel ==
      if AnyGrounds(Pass(k, s, obs).contacts) then k.vel.(y := 0.0) else k.vel
  {
    FoldVelocity((k': Kin, o: Box) => Resolve(k', s, o), k, obs);
  }

  /** The player ends where it started plus the sum of all pushes. */
  lemma PassPosition(k: Kin, s: Shape, obs: seq<Box>)
    ensures Pass(k, s, obs).kin.pos == Add(k.pos, TotalPush(Pass(k, s, obs).contacts))
  {
    FoldPosition((k': Kin, o: Box) => Resolve(k', s, o), k, obs);
  }

  /** The frame before the obstacle pass: jump if asked (which only fires
      from the ground), move by the intents, fall under gravity, and forget
      the previous frame's landing. */
  function MoveAndFall(k: Kin, i: Intents, dt: real): (r: Kin)
    ensures !r.grounded
    ensures r.vel.x == k.vel.x && r.vel.z == k.vel.z
    ensures r.vel.y == (if i.jump && k.grounded then JumpSpeed else k.vel.y) - Gravity * dt
    ensures r.pos == Add(Add(k.pos, Movement(i, dt)), Scale(r.vel, dt))
  {
    var jumped := if i.jump then AfterJump(k) else k;
    var moved := jumped.(pos := Add(jumped.pos, Movement(i, dt)));
    AfterGravity(moved, dt).(grounded := false)
  }

  /** One frame on values: move and fall, then resolve the obstacles in order. */
  function Advance(k: Kin, s: Shape, obs: seq<Box>, i: Intents, dt: real): (r: PassResult)
    ensures |r.contacts| == |obs|
  {
    Pass(MoveAndFall(k, i, dt), s, obs)
  }

  /** Landing is not remembered between frames: after a frame the player is
      grounded exactly when one of this frame's contacts pushed it up, and
      then its vertical speed is zero. */
  lemma {:induction false} GroundedOnlyByThisFrame(k: Kin, s: Shape, obs: seq<Box>, i: Intents, dt: real)
    ensures Advance(k, s, obs, i, dt).kin.grounded <==> AnyGrounds(Advance(k, s, obs, i, dt).contacts)
    ensures Advance(k, s, obs, i, dt).kin.grounded ==> Advance(k, s, obs, i, dt).kin.vel.y == 0.0
  {
    var start := MoveAndFall(k, i, dt);
    PassGrounding(start, s, obs);
    PassVelocity(start, s, obs);
  }

  /** The geometry of every obstacle in the list. */
  ghost function Boxes(obs: seq<Collider>): (r: seq<Box>)
    reads obs`pos, obs`halfExtents, obs`rotation
    ensures |r| == |obs|
    ensures forall j :: 0 <= j < |obs| ==> r[j] == obs[j].Geometry()
  {
    if obs == [] then [] else [obs[0].Geometry()] + Boxes(obs[1..])
  }

  lemma AnyHitAppend(cs: seq<Contact>, c: Contact)
    ensures AnyHit(cs + [c]) == (AnyHit(cs) || c.Hit?)
  {
    var cs' := cs + [c];
    if c.Hit? { assert cs'[|cs|].Hit?; }
    if AnyHit(cs) {
      var j :| 0 <= j < |cs| && cs[j].Hit?;
      assert cs'[j].Hit?;
    }
  }

  /** The body of the collision loop for one obstacle: test it against the
      player and, on a hit, raise both contact flags and push the player out,
      landing it when pushed straight up. `contact` records what happened. */
  method ResolveObstacle(player: Player, obstacle: Collider) returns (ghost contact: Contact)
    requires obstacle != player.collider
    modifies player`velocity, player`isGrounded, player.collider`pos, player.collider`isColliding, obstacle`isColliding
    ensures var r := Resolve(old(player.State()),
                             Shape(player.collider.halfExtents, player.collider.rotation),
                             obstacle.Geometry());
      player.State() == r.kin && contact == r.contact
    ensures player.collider.isColliding == (old(player.collider.isColliding) || contact.Hit?)
    ensures obstacle.isColliding == (old(obstacle.isColliding) || contact.Hit?)
  {
    ghost var before := player.State();
    ghost var shape := Shape(player.collider.halfExtents, player.collider.rotation);
    assert player.collider.Geometry() == PlayerBox(before, shape);
    var hit, mtv := CheckCollision(player.collider, obstacle, Mtv(Zero, 0.0));
    contact := Miss;
    if hit {
      player.collider.isColliding := true;
      obstacle.isColliding := true;
      var translation := Translation(player.collider.pos, obstacle.pos, mtv);
      player.collider.pos := Add(player.collider.pos, translation);
      if mtv.axis.y == 1.0 && translation.y > 0.0 {
        player.isGrounded := true;
        player.velocity := player.velocity.(y := 0.0);
      }
      contact := Hit(mtv, translation);
    }
  }

  /** The part of the frame before collision detection, on the objects. */
  method PrepareFrame(player: Player, obstacles: seq<Collider>, intents: Intents, dt: real)
    modifies player`velocity, player`isGrounded, player.collider`pos, player.collider`isColliding
    modifies obstacles`isColliding
    ensures player.State() == MoveAndFall(old(player.State()), intents, dt)
    ensures !player.collider.isColliding
    ensures forall j :: 0 <= j < |obstacles| ==> !obstacles[j].isColliding
  {
    if intents.jump {
      player.Jump();
    }
    var movement := Movement(intents, dt);
    player.collider.pos := Add(player.collider.pos, movement);
    player.UpdateGravity(dt);

    player.collider.isColliding := false;
    for i := 0 to |obstacles|
      modifies obstacles`isColliding
      invariant forall j :: 0 <= j < i ==> !obstacles[j].isColliding
    {
      obstacles[i].isColliding := false;
    }
    player.isGrounded := false;
  }

  /** Collision detection: the obstacles resolved in list order against the
      player. The player ends as `Pass` says; each contact flag is raised by
      a hit and otherwise keeps its value. */
  method ResolveObstacles(player: Player, obstacles: seq<Collider>)
    requires player.collider !in obstacles
    requires forall a, b :: 0 <= a < b < |obstacles| ==> obstacles[a] != obstacles[b]
    modifies player`velocity, player`isGrounded, player.collider`pos, player.collider`isColliding
    modifies obstacles`isColliding
    ensures var r := Pass(old(player.State()),
                          Shape(player.collider.halfExtents, player.collider.rotation),
                          old(Boxes(obstacles)));
      player.State() == r.kin &&
      player.collider.isColliding == (old(player.collider.isColliding) || AnyHit(r.contacts)) &&
      forall j :: 0 <= j < |obstacles| ==>
        obstacles[j].isColliding == (old(obstacles[j].isColliding) || r.contacts[j].Hit?)
  {
    ghost var boxes := Boxes(obstacles);
    ghost var shape := Shape(player.collider.halfExtents, player.collider.rotation);
    ghost var final := Pass(player.State(), shape, boxes);
    ghost var contacts: seq<Contact> := [];
    for i := 0 to |obstacles|
      invariant |contacts| == i
      invariant Pass(player.State(), shape, boxes[i..]).kin == final.kin
      invariant contacts + Pass(player.State(), shape, boxes[i..]).contacts == final.contacts
      invariant forall j :: 0 <= j < |obstacles| ==>
        obstacles[j].isColliding == (old(obstacles[j].isColliding) || (j < i && contacts[j].Hit?))
      invariant player.collider.isColliding == (old(player.collider.isColliding) || AnyHit(contacts))
    {
      PassAdvance(player.State(), shape, boxes, i, contacts);
      assert obstacles[i].pos == old(obstacles[i].pos) && obstacles[i].halfExtents == old(obstacles[i].halfExtents);
      assert obstacles[i].rotation == old(obstacles[i].rotation);
      assert obstacles[i].Geometry() == boxes[i];
      assert player.collider.halfExtents == shape.half && player.collider.rotation == shape.rot;
      ghost var contact := ResolveObstacle(player, obstacles[i]);
      AnyHitAppend(contacts, contact);
      contacts := contacts + [contact];
    }
    assert boxes[|obstacles|..] == [];
    assert Pass(player.State(), shape, []).contacts == [];
    assert contacts == final.contacts;
  }

  /** One frame of the demo's loop on its objects: the player's state and
      every contact flag end as the value-level frame `Advance` says, and no
      geometry other than the player's centre changes. */
  method Step(player: Player, obstacles: seq<Collider>, intents: Intents, dt: real)
    requires player.collider !in obstacles
    requires forall a, b :: 0 <= a < b < |obstacles| ==> obstacles[a] != obstacles[b]
    requires player.collider.Valid()
    requires forall j :: 0 <= j < |obstacles| ==> obstacles[j].Valid()
    modifies player`velocity, player`isGrounded, player.collider`pos, player.collider`isColliding
    modifies obstacles`isColliding
    ensures player.collider.Valid()
    ensures forall j :: 0 <= j < |obstacles| ==> obstacles[j].Valid()
    ensures var r := Advance(old(player.State()),
                             Shape(old(player.collider.halfExtents), old(player.collider.rotation)),
                             old(Boxes(obstacles)), intents, dt);
      player.State() == r.kin &&
      player.collider.isColliding == AnyHit(r.contacts) &&
      forall j :: 0 <= j < |obstacles| ==> obstacles[j].isColliding == r.contacts[j].Hit?
    ensures player.collider.size == old(player.collider.size)
    ensures player.collider.halfExtents == old(player.collider.halfExtents)
    ensures player.collider.rotation == old(player.collider.rotation)
    ensures forall j :: 0 <= j < |obstacles| ==>
      obstacles[j].Geometry() == old(obstacles[j].Geometry()) && obstacles[j].size == old(obstacles[j].size)
  {
    ghost var boxes := Boxes(obstacles);
    PrepareFrame(player, obstacles, intents, dt);
    assert Boxes(obstacles) == boxes;
    ResolveObstacles(player, obstacles);
  }

  /** The player's box sunk by `sink` into the floor plate: the vertical
      overlap is the sink, the least of the three, so the vertical axis is
      reported with the sink as depth. */
  lemma SunkIntoFloor(p: Box, floor: Box, sink: real)
    requires p.pos == Vec3(0.0, 1.0 - sink, 0.0) && p.half == Vec3(0.5, 1.0, 0.5) && p.rot == Identity
    requires floor.pos == Vec3(0.0, -0.05, 0.0) && floor.half == Vec3(50.0, 0.05, 50.0) && floor.rot == Identity
    requires 0.0 < sink <= 0.8
    ensures Collision(p, floor) == Some(Mtv(YAxis, sink))
  {
    UnrotatedOverlap(p, floor);
    MinAxisIsReported(p, floor, 1);
  }

  /** A player whose centre is not below the obstacle's is pushed straight
      up by the depth of a vertical MTV. */
  lemma PushedUpFromFloor(playerPos: Vec3, floorPos: Vec3, depth: real)
    requires playerPos.y >= floorPos.y
    ensures Translation(playerPos, floorPos, Mtv(YAxis, depth)) == Vec3(0.0, depth, 0.0)
  {
    DotWorldAxes(Sub(playerPos, floorPos));
  }

  /** A first frame with the floor plate as the only obstacle: the 1 x 2 x 1
      player stands with its feet at height 0 on the plate and no key is
      held (the demo's randomly placed boxes are not in the list). For any
      frame time up to a fifth of a second, gravity sinks it into the plate,
      the vertical axis has the least overlap, and it is pushed straight back
      up: it ends grounded, at rest, with its feet exactly at height 0 again. */
  lemma LandingOnTheFloor(k: Kin, s: Shape, floor: Box, dt: real)
    requires k.pos == Vec3(0.0, 1.0, 0.0) && k.vel == Zero && !k.grounded
    requires s.half == Vec3(0.5, 1.0, 0.5) && s.rot == Identity
    requires floor.pos == Vec3(0.0, -0.05, 0.0) && floor.half == Vec3(50.0, 0.05, 50.0) && floor.rot == Identity
    requires 0.0 < dt <= 0.2
    ensures var r := Advance(k, s, [floor], Intents(false, false, false, false, false), dt);
      r.kin.grounded && r.kin.vel == Zero && r.kin.pos == Vec3(0.0, 1.0, 0.0) &&
      r.contacts == [Hit(Mtv(YAxis, Gravity * dt * dt), Vec3(0.0, Gravity * dt * dt, 0.0))]
  {
    var i := Intents(false, false, false, false, false);
    var sink := Gravity * dt * dt;
    SinkBound(dt);
    var start := AfterGravity(k.(pos := Add(k.pos, Movement(i, dt))), dt).(grounded := false);
    FallFromRest(k, dt);
    LandingResolution(start, s, floor, sink);
    PassSingle(start, s, floor);
  }

  lemma PassSingle(k: Kin, s: Shape, o: Box)
    ensures Pass(k, s, [o]) == PassResult(Resolve(k, s, o).kin, [Resolve(k, s, o).contact])
  {
    PassCons(k, s, [o]);
    assert [o][1..] == [];
  }

  /** The drop of one frame from rest stays within the 0.8 of sink that
      `SunkIntoFloor` allows. */
  lemma SinkBound(dt: real)
    requires 0.0 < dt <= 0.2
    ensures 0.0 < Gravity * dt * dt <= 0.8
  {
    MulMonotone(dt, dt, 0.2);
    MulMonotone(0.2, dt, 0.2);
    assert Gravity * dt * dt == Gravity * (dt * dt);
    MulPositive(dt, dt);
  }

  /** With no key held, a player at rest, wherever it stands, sinks straight
      down by `Gravity * dt * dt`. */
  lemma FallFromRest(k: Kin, dt: real)
    requires k.vel == Zero
    ensures var start := AfterGravity(k.(pos := Add(k.pos, Movement(Intents(false, false, false, false, false), dt))), dt);
      start.pos == Vec3(k.pos.x, k.pos.y - Gravity * dt * dt, k.pos.z) && start.vel.x == 0.0 && start.vel.z == 0.0
  {
  }

  /** The resolution step of `LandingOnTheFloor`. */
  lemma LandingResolution(start: Kin, s: Shape, floor: Box, sink: real)
    requires start.pos == Vec3(0.0, 1.0 - sink, 0.0) && start.vel.x == 0.0 && start.vel.z == 0.0
    requires s.half == Vec3(0.5, 1.0, 0.5) && s.rot == Identity
    requires floor.pos == Vec3(0.0, -0.05, 0.0) && floor.half == Vec3(50.0, 0.05, 50.0) && floor.rot == Identity
    requires 0.0 < sink <= 0.8
    ensures Resolve(start, s, floor) ==
      Outcome(Kin(Vec3(0.0, 1.0, 0.0), Zero, true), Hit(Mtv(YAxis, sink), Vec3(0.0, sink, 0.0)))
  {
    SunkIntoFloor(PlayerBox(start, s), floor, sink);
    PushedUpFromFloor(start.pos, floor.pos, sink);
  }

  /** Boxes with the same centre, such as the 1 x 2 x 1 player inside a
      2 x 2 x 2 obstacle, overlap on every world axis by the sum of their
      half-extents; the push goes along the positive reported axis by the
      full depth, so it always moves the player. */
  lemma CoincidentBoxes(p: Box, o: Box)
    requires p.rot == Identity && o.rot == Identity
    requires Positive(p.half) && Positive(o.half)
    requires p.pos == o.pos
    ensures Collision(p, o).Some?
    ensures var m := Collision(p, o).value;
      m.depth > 0.0 && Translation(p.pos, o.pos, m) == Scale(m.axis, m.depth)
    ensures Overlap(p, o, XAxis) == p.half.x + o.half.x
    ensures Overlap(p, o, YAxis) == p.half.y + o.half.y
    ensures Overlap(p, o, ZAxis) == p.half.z + o.half.z
  {
    UnrotatedOverlap(p, o);
    assert Sub(p.pos, o.pos) == Zero;
  }
}
