/** One game session: the key table and the held-key flags, the collision
    flags kept per body label, the choice of impulse for the ball, and the
    handlers the engine calls on key events, ticks and contacts. */
module Session {
  import opened Wrappers
  import opened Entities

  /** Start layout constants. */
  const BatWidth: int := 300
  const BatHeight: int := 10
  const BallRadius: int := 20
  const FenceWidth: int := 2

  datatype Direction = Left | Up | Right | Down

  const AllDirections: set<Direction> := {Left, Up, Right, Down}

  /** The key code of each direction: the arrow keys. */
  function KeyCode(d: Direction): int
  {
    match d
    case Left => 37
    case Up => 38
    case Right => 39
    case Down => 40
  }

  /** The key table lookup: the direction bound to a code, if any. */
  function KeyDirection(code: int): (r: Option<Direction>)
    ensures r.Some? ==> KeyCode(r.value) == code
    ensures r.None? ==> forall d: Direction :: KeyCode(d) != code
  {
    if code == 37 then Some(Left)
    else if code == 38 then Some(Up)
    else if code == 39 then Some(Right)
    else if code == 40 then Some(Down)
    else None
  }

  /** Looking up a direction's own code gives back that direction. */
  lemma KeyTableRoundTrip(d: Direction)
    ensures KeyDirection(KeyCode(d)) == Some(d)
  {
  }

  /** A pair of bodies reported as touching by a contact-start event. */
  datatype Pair = Pair(labelA: string, labelB: string)

  /** Every label named by some pair. */
  function PairLabels(pairs: seq<Pair>): set<string>
  {
    (set p | p in pairs :: p.labelA) + (set p | p in pairs :: p.labelB)
  }

  /** A collision flag as read by a truth test: an absent label reads as
      undefined, which is false. */
  predicate Flag(cs: map<string, bool>, l: string)
  {
    l in cs && cs[l]
  }

  /** ToInt32 of a collision-state property, as the bitwise `&` converts
      it: true is 1, false is 0, and undefined becomes NaN and then 0. */
  function AsInt32(cs: map<string, bool>, l: string): bv32
  {
    if l !in cs then 0
    else if cs[l] then 1
    else 0
  }

  /** The impulse applied to the ball on a tick. */
  datatype Force = PlayerForce | CompForce | NoForce

  /** The force hook's choice, using the bitwise `&` of the flags as
      script.js writes it. The contract states it with logical conjunction: the
      player's pairing is tested first, at most one force is chosen, and the
      empty state yields none. */
  function ChooseForce(cs: map<string, bool>): (f: Force)
    ensures f == PlayerForce <==> Flag(cs, "playerBat") && Flag(cs, "ball")
    ensures f == CompForce <==>
              !(Flag(cs, "playerBat") && Flag(cs, "ball")) && Flag(cs, "compBat") && Flag(cs, "ball")
    ensures f == NoForce <==> !Flag(cs, "ball") || (!Flag(cs, "playerBat") && !Flag(cs, "compBat"))
    ensures cs == map[] ==> f == NoForce
  {
    if AsInt32(cs, "playerBat") & AsInt32(cs, "ball") != 0 then PlayerForce
    else if AsInt32(cs, "compBat") & AsInt32(cs, "ball") != 0 then CompForce
    else NoForce
  }

  /** The collision state after marking the pairs of a contact-start event
      in order, first pair first. */
  function Marked(cs: map<string, bool>, pairs: seq<Pair>): map<string, bool>
    decreases |pairs|
  {
    if pairs == [] then cs
    else
      var last := pairs[|pairs| - 1];
      Marked(cs, pairs[..|pairs| - 1])[last.labelA := true][last.labelB := true]
  }

  /** Marking sets every reported label to true, adds no other label and
      leaves the flag of every unreported label as it was. */
  lemma {:induction false} MarkedSpec(cs: map<string, bool>, pairs: seq<Pair>)
    ensures Marked(cs, pairs).Keys == cs.Keys + PairLabels(pairs)
    ensures forall l :: l in PairLabels(pairs) ==> Marked(cs, pairs)[l]
    ensures forall l :: l in cs && l !in PairLabels(pairs) ==> Marked(cs, pairs)[l] == cs[l]
    decreases |pairs|
  {
    if pairs != [] {
      var n := |pairs|;
      var init, last := pairs[..n - 1], pairs[n - 1];
      MarkedSpec(cs, init);
      assert pairs == init + [last];
      assert PairLabels(pairs) == PairLabels(init) + {last.labelA, last.labelB};
    }
  }

  /** A contact start reporting both the player's bat and the ball makes
      the next force tick push the ball away from the player. */
  lemma PlayerContactGivesPlayerForce(cs: map<string, bool>, pairs: seq<Pair>)
    requires "playerBat" in PairLabels(pairs) && "ball" in PairLabels(pairs)
    ensures ChooseForce(Marked(cs, pairs)) == PlayerForce
  {
    MarkedSpec(cs, pairs);
  }

  /** The state every contact end installs. */
  const Cleared: map<string, bool> := map["playerBat" := false, "compBat" := false, "ball" := false]

  /** After a contact end no label is flagged, fence labels are absent and
      no force is chosen. */
  lemma ClearedHasNoContact()
    ensures Cleared.Keys == {"playerBat", "compBat", "ball"}
    ensures forall l :: !Flag(Cleared, l)
    ensures "lFence" !in Cleared && "rFence" !in Cleared
    ensures ChooseForce(Cleared) == NoForce
  {
  }

  /** The session set up at page load, with the handlers the engine and
      the keyboard call. */
  class Game {
    const arena: Arena
    const playerBat: Bat
    const compBat: Bat
    const lFence: Bat
    const rFence: Bat
    const ball: Ball
    /** Held flag per direction. */
    var activeKeys: map<Direction, bool>
    /** Contact flag per body label. */
    var collisionState: map<string, bool>

    ghost predicate Valid()
      reads this
    {
      activeKeys.Keys == AllDirections &&
      playerBat.name == "playerBat" && compBat.name == "compBat" && ball.name == "ball" &&
      playerBat.arena == arena && compBat.arena == arena &&
      playerBat.movement == MovementStep(arena.width) &&
      playerBat != compBat && playerBat != lFence && playerBat != rFence
    }

    /** Page-load set-up for a viewport of the given size: entities built
        and drawn at their start positions, no key held, no contact known. */
    constructor (maxWidth: nat, maxHeight: nat)
      ensures Valid()
      ensures arena == Arena(maxWidth, maxHeight)
      ensures activeKeys == map[Left := false, Up := false, Right := false, Down := false]
      ensures collisionState == map[]
      ensures playerBat.width == BatWidth && compBat.width == BatWidth
      ensures playerBat.movement == MovementStep(maxWidth)
      ensures lFence.name == "lFence" && rFence.name == "rFence"
      ensures lFence.width == FenceWidth && rFence.width == FenceWidth
      ensures playerBat.body == Some(Point((maxWidth as real - BatWidth as real) / 2.0,
                                           maxHeight as real - BatHeight as real * 2.0))
      ensures compBat.body == Some(Point((maxWidth as real - BatWidth as real) / 2.0 + 70.0,
                                         BatHeight as real))
      ensures lFence.body == Some(Point(0.0, maxHeight as real / 2.0))
      ensures rFence.body == Some(Point(maxWidth as real, maxHeight as real / 2.0))
      ensures ball.body == Some(Point(maxWidth as real / 2.0, maxHeight as real / 2.0))
      ensures fresh(playerBat) && fresh(compBat) && fresh(lFence) && fresh(rFence) && fresh(ball)
    {
      var a := Arena(maxWidth, maxHeight);
      arena := a;
      playerBat := new Bat("playerBat", BatWidth, BatHeight, a);
      compBat := new Bat("compBat", BatWidth, BatHeight, a);
      lFence := new Bat("lFence", FenceWidth, maxHeight, a);
      rFence := new Bat("rFence", FenceWidth, maxHeight, a);
      ball := new Ball("ball", BallRadius, a);
      activeKeys := map[Left := false, Up := false, Right := false, Down := false];
      collisionState := map[];
      new;
      playerBat.Draw(Point((maxWidth as real - BatWidth as real) / 2.0,
                           maxHeight as real - BatHeight as real * 2.0));
      compBat.Draw(Point((maxWidth as real - BatWidth as real) / 2.0 + 70.0, BatHeight as real));
      lFence.Draw(Point(0.0, maxHeight as real / 2.0));
      rFence.Draw(Point(maxWidth as real, maxHeight as real / 2.0));
      ball.Draw(Point(maxWidth as real / 2.0, maxHeight as real / 2.0));
    }

    /** Key press (state true) or release (state false): the direction
        bound to the code takes the new state; other codes are ignored. */
    method FlipKey(code: int, state: bool)
      requires Valid()
      modifies this`activeKeys
      ensures Valid()
      ensures forall d :: d in AllDirections ==>
                activeKeys[d] == if code == KeyCode(d) then state else old(activeKeys)[d]
      ensures KeyDirection(code) == None ==> activeKeys == old(activeKeys)
    {
      var activeKey := KeyDirection(code);
      if activeKey.Some? {
        activeKeys := activeKeys[activeKey.value := state];
      }
    }

    /** The movement hook: LEFT held moves the player's bat left, even with
        RIGHT held; otherwise RIGHT held moves it right; otherwise nothing. */
    method MovementTick()
      requires Valid()
      modifies playerBat`body
      ensures Valid()
      ensures activeKeys[Left] ==>
                playerBat.body == MovedLeft(old(playerBat.body), playerBat.width, playerBat.movement)
      ensures !activeKeys[Left] && activeKeys[Right] ==>
                playerBat.body == MovedRight(old(playerBat.body), playerBat.width, arena.width, playerBat.movement)
      ensures !activeKeys[Left] && !activeKeys[Right] ==> playerBat.body == old(playerBat.body)
    {
      if activeKeys[Left] {
        playerBat.MoveLeft();
      } else if activeKeys[Right] {
        playerBat.MoveRight();
      }
    }

    /** The force hook: the impulse applied to the ball on this tick, from
        the collision flags alone. */
    method ForceTick() returns (force: Force)
      ensures force == PlayerForce <==> Flag(collisionState, "playerBat") && Flag(collisionState, "ball")
      ensures force == CompForce <==>
                !(Flag(collisionState, "playerBat") && Flag(collisionState, "ball")) &&
                Flag(collisionState, "compBat") && Flag(collisionState, "ball")
      ensures force == NoForce <==>
                !Flag(collisionState, "ball") ||
                (!Flag(collisionState, "playerBat") && !Flag(collisionState, "compBat"))
    {
      force := ChooseForce(collisionState);
    }

    /** Contact start: both labels of every reported pair become true. */
    method CollisionStart(pairs: seq<Pair>)
      modifies this`collisionState
      ensures collisionState == Marked(old(collisionState), pairs)
      ensures collisionState.Keys == old(collisionState).Keys + PairLabels(pairs)
      ensures forall l :: l in PairLabels(pairs) ==> collisionState[l]
      ensures forall l :: l in old(collisionState) && l !in PairLabels(pairs) ==>
                collisionState[l] == old(collisionState)[l]
    {
      var i := 0;
      while i < |pairs|
        invariant 0 <= i <= |pairs|
        invariant collisionState == Marked(old(collisionState), pairs[..i])
      {
        var p := pairs[i];
        assert pairs[..i + 1][..i] == pairs[..i];
        collisionState := collisionState[p.labelA := true];
        collisionState := collisionState[p.labelB := true];
        i := i + 1;
      }
      assert pairs[..i] == pairs;
      MarkedSpec(old(collisionState), pairs);
    }

    /** Contact end: whatever ended, the whole state is replaced by three
        false flags. */
    method CollisionEnd()
      modifies this`collisionState
      ensures collisionState == Cleared
    {
      collisionState := map["playerBat" := false, "compBat" := false, "ball" := false];
    }
  }
}
