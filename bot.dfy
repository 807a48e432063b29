/** The AI decision bookkeeping of a bot: the kind codec and tuning table,
    sticky target selection, out-of-ammo weapon fallback, the waypoint
    cursor, the re-plan cadence, the aim lockout after damage and the melee
    cooldown.  Physics, the navigation mesh and the animation clips are
    replaced by the oracle values each tick receives. */
module BotAI {
  import opened Common

  // ---------------------------------------------------------------------
  // Kinds and their tuning table

  datatype BotKind = Mutant | Parasite | Zombie

  /** Decoding of the persisted kind id; any id outside 0..=2 is a load error. */
  function KindFromId(id: int): (r: Result<BotKind>)
    ensures r.Ok? <==> 0 <= id <= 2
  {
    if id == 0 then Ok(Mutant)
    else if id == 1 then Ok(Parasite)
    else if id == 2 then Ok(Zombie)
    else Err("Invalid bot kind")
  }

  /** Encoding of a kind as the id that is persisted; decoding inverts it. */
  function KindId(kind: BotKind): (id: int)
    ensures 0 <= id <= 2
    ensures KindFromId(id) == Ok(kind)
  {
    match kind
    case Mutant => 0
    case Parasite => 1
    case Zombie => 2
  }

  /** Every id that decodes successfully is the id of the kind it decodes to. */
  lemma KindFromIdInverse(id: int)
    ensures KindFromId(id).Ok? ==> KindId(KindFromId(id).value) == id
  {
  }

  /** The static tunables of one kind of bot. */
  datatype BotDefinition = BotDefinition(
    scale: real,
    health: real,
    kind: BotKind,
    walkSpeed: real,
    weaponScale: real,
    model: string,
    weaponHandName: string,
    leftLegName: string,
    rightLegName: string,
    spine: string,
    vAimAngleHack: real,
    canUseWeapons: bool,
    attackDamage: real,
    attackTimestamp: real,
    idleAnimation: string,
    screamAnimation: string,
    attackAnimation: string,
    walkAnimation: string,
    aimAnimation: string,
    dyingAnimation: string)

  const MUTANT_DEFINITION: BotDefinition :=
    BotDefinition(
      scale := 0.0065, health := 1000.0, kind := Mutant, walkSpeed := 0.7,
      weaponScale := 1.0, model := "data/models/mutant.FBX",
      weaponHandName := "Mutant:RightHand", leftLegName := "Mutant:LeftUpLeg",
      rightLegName := "Mutant:RightUpLeg", spine := "", vAimAngleHack := 0.0,
      canUseWeapons := false, attackDamage := 120.0, attackTimestamp := 1.1,
      idleAnimation := "data/animations/mutant_idle.fbx",
      screamAnimation := "data/animations/mutant_scream.fbx",
      attackAnimation := "data/animations/mutant_attack_swipe.fbx",
      walkAnimation := "data/animations/mutant_walk.fbx",
      aimAnimation := "",
      dyingAnimation := "data/animations/mutant_dying.fbx")

  const PARASITE_DEFINITION: BotDefinition :=
    BotDefinition(
      scale := 0.0055, health := 300.0, kind := Parasite, walkSpeed := 1.0,
      weaponScale := 1.0, model := "data/models/parasite.FBX",
      weaponHandName := "RightHand", leftLegName := "LeftUpLeg",
      rightLegName := "RightUpLeg", spine := "", vAimAngleHack := 0.0,
      canUseWeapons := false, attackDamage := 40.0, attackTimestamp := 1.1,
      idleAnimation := "data/animations/parasite_idle.fbx",
      screamAnimation := "data/animations/parasite_scream.fbx",
      attackAnimation := "data/animations/parasite_attack.fbx",
      walkAnimation := "data/animations/parasite_running.fbx",
      aimAnimation := "",
      dyingAnimation := "data/animations/parasite_dying.fbx")

  const ZOMBIE_DEFINITION: BotDefinition :=
    BotDefinition(
      scale := 0.0055, health := 100.0, kind := Parasite, walkSpeed := 1.2,
      weaponScale := 1.0, model := "data/models/zombie.fbx",
      weaponHandName := "mixamorig5:RightHand", leftLegName := "mixamorig5:LeftUpLeg",
      rightLegName := "mixamorig5:RightUpLeg", spine := "Spine", vAimAngleHack := 12.0,
      canUseWeapons := false, attackDamage := 40.0, attackTimestamp := 1.6,
      idleAnimation := "data/animations/zombie_idle.fbx",
      screamAnimation := "data/animations/zombie_scream.fbx",
      attackAnimation := "data/animations/zombie_attack.fbx",
      walkAnimation := "data/animations/zombie_running.fbx",
      aimAnimation := "data/animations/zombie_aim_rifle.fbx",
      dyingAnimation := "data/animations/zombie_dying.fbx")

  /** The tuning table exactly as written, including the Zombie entry that
      reports its kind as Parasite. */
  function GetDefinition(kind: BotKind): (d: BotDefinition)
    ensures d.health > 0.0 && d.walkSpeed > 0.0 && d.attackDamage > 0.0
    ensures !d.canUseWeapons
    ensures (d.spine == "") == (d.aimAnimation == "")
  {
    match kind
    case Mutant => MUTANT_DEFINITION
    case Parasite => PARASITE_DEFINITION
    case Zombie => ZOMBIE_DEFINITION
  }

  /** The table as written disagrees with the kind that selects it. */
  lemma ZombieDefinitionMislabelled()
    ensures GetDefinition(Zombie).kind != Zombie
  {
  }

  /** The table with the kind field taken from the selecting kind; every
      other tunable is the one written in the table.  The bot uses this. */
  function Definition(kind: BotKind): (d: BotDefinition)
    ensures d.kind == kind
    ensures d.(kind := GetDefinition(kind).kind) == GetDefinition(kind)
  {
    GetDefinition(kind).(kind := kind)
  }

  /** A bot may shoot only from the aim state and only if its kind can use
      weapons; no kind in the table can, so no bot ever shoots. */
  function CanShoot(definition: BotDefinition, upperInAimState: bool): (r: bool)
    ensures !definition.canUseWeapons ==> !r
    ensures !upperInAimState ==> !r
  {
    upperInAimState && definition.canUseWeapons
  }

  /** No kind in the table can use weapons, so no bot ever shoots. */
  lemma BotsNeverShoot(kind: BotKind, upperInAimState: bool)
    ensures !CanShoot(Definition(kind), upperInAimState)
  {
  }

  // ---------------------------------------------------------------------
  // Target selection

  /** The kind of collider a ray hit: a static triangle mesh (level
      geometry), the bot's own body, or anything else. */
  datatype HitKind = Trimesh | OwnBody | OtherCollider

  datatype Plane = Plane(normal: Vec3, d: real)

  /** The view frustum, as the planes bounding it. */
  datatype Frustum = Frustum(planes: seq<Plane>)

  predicate FrustumContains(f: Frustum, p: Vec3) {
    forall i :: 0 <= i < |f.planes| ==> Dot(f.planes[i].normal, p) + f.planes[i].d >= 0.0
  }

  /** A candidate target as the actor container reports it. */
  datatype TargetDescriptor = TargetDescriptor(handle: Handle, health: real, position: Vec3)

  /** What target selection consults besides the candidates: the bot's own
      handle, its body position, its frustum, and the physics ray cast from
      a candidate's position to the bot (the colliders hit, in order). */
  datatype Sight = Sight(selfHandle: Handle, position: Vec3, frustum: Frustum,
                         castRay: Vec3 -> seq<HitKind>)

  /** The descriptor still names the current target, alive, and not the bot. */
  predicate Retains(t: Target, selfHandle: Handle, desc: TargetDescriptor) {
    desc.handle != selfHandle && desc.handle == t.handle && desc.health > 0.0
  }

  /** Index of the first descriptor at or after i that retains t. */
  function RetainedFrom(t: Target, selfHandle: Handle, targets: seq<TargetDescriptor>, i: nat): (r: Option<nat>)
    requires i <= |targets|
    ensures r.Some? ==> i <= r.value < |targets| && Retains(t, selfHandle, targets[r.value])
    ensures r.Some? ==> forall j :: i <= j < r.value ==> !Retains(t, selfHandle, targets[j])
    ensures r.None? <==> forall j :: i <= j < |targets| ==> !Retains(t, selfHandle, targets[j])
    decreases |targets| - i
  {
    if i == |targets| then None
    else if Retains(t, selfHandle, targets[i]) then Some(i)
    else RetainedFrom(t, selfHandle, targets, i + 1)
  }

  predicate Sticky(current: Option<Target>, s: Sight, targets: seq<TargetDescriptor>) {
    current.Some? && RetainedFrom(current.value, s.selfHandle, targets, 0).Some?
  }

  /** A candidate other than the bot, inside the frustum, whose ray to the
      bot crosses no triangle mesh.  Hits on the bot's own body or on other
      colliders never disqualify. */
  predicate Qualifies(s: Sight, desc: TargetDescriptor) {
    desc.handle != s.selfHandle && FrustumContains(s.frustum, desc.position)
    && Trimesh !in s.castRay(desc.position)
  }

  /** Index, among the first n candidates, of the qualifying one with the
      strictly smallest squared distance to the bot (the first on ties). */
  function Nearest(s: Sight, targets: seq<TargetDescriptor>, n: nat): (r: Option<nat>)
    requires n <= |targets|
    ensures r.Some? ==> r.value < n && Qualifies(s, targets[r.value])
    ensures r.Some? ==> forall j :: 0 <= j < n && Qualifies(s, targets[j]) ==>
      SqrDistance(s.position, targets[r.value].position) <= SqrDistance(s.position, targets[j].position)
    ensures r.Some? ==> forall j :: 0 <= j < r.value && Qualifies(s, targets[j]) ==>
      SqrDistance(s.position, targets[r.value].position) < SqrDistance(s.position, targets[j].position)
    ensures r.None? <==> forall j :: 0 <= j < n ==> !Qualifies(s, targets[j])
  {
    if n == 0 then None
    else
      var best := Nearest(s, targets, n - 1);
      if Qualifies(s, targets[n - 1])
         && (best.None? || SqrDistance(s.position, targets[n - 1].position)
                           < SqrDistance(s.position, targets[best.value].position))
      then Some(n - 1)
      else best
  }

  /** The target after select_target: the current one kept (with a fresh
      position) while it is still a live candidate, otherwise the nearest
      qualifying candidate, otherwise the current one unchanged. */
  function SelectedTarget(current: Option<Target>, s: Sight, targets: seq<TargetDescriptor>): (r: Option<Target>)
    ensures Sticky(current, s, targets) ==>
      var i := RetainedFrom(current.value, s.selfHandle, targets, 0).value;
      r == Some(current.value.(position := targets[i].position))
    ensures !Sticky(current, s, targets) && r != current ==>
      r.Some? && r.value.handle != s.selfHandle
      && exists i :: 0 <= i < |targets| && Qualifies(s, targets[i])
           && r.value == Target(targets[i].position, targets[i].handle)
           && (forall j :: 0 <= j < |targets| && Qualifies(s, targets[j]) ==>
                 SqrDistance(s.position, targets[i].position) <= SqrDistance(s.position, targets[j].position))
    ensures !Sticky(current, s, targets) && (forall j :: 0 <= j < |targets| ==> !Qualifies(s, targets[j])) ==>
      r == current
    ensures !Sticky(current, s, targets) && (exists j :: 0 <= j < |targets| && Qualifies(s, targets[j])) ==>
      exists k :: 0 <= k < |targets| && Qualifies(s, targets[k])
        && r == Some(Target(targets[k].position, targets[k].handle))
        && (forall j :: 0 <= j < |targets| && Qualifies(s, targets[j]) ==>
              SqrDistance(s.position, targets[k].position) <= SqrDistance(s.position, targets[j].position))
        && (forall j :: 0 <= j < k && Qualifies(s, targets[j]) ==>
              SqrDistance(s.position, targets[k].position) < SqrDistance(s.position, targets[j].position))
  {
    if Sticky(current, s, targets) then
      var i := RetainedFrom(current.value, s.selfHandle, targets, 0).value;
      Some(current.value.(position := targets[i].position))
    else
      match Nearest(s, targets, |targets|)
      case None => current
      case Some(i) => Some(Target(targets[i].position, targets[i].handle))
  }

  /** Sticky-target law: while the current target is a live candidate, no
      other candidate replaces it, however close. */
  lemma StickyTargetKept(current: Target, s: Sight, targets: seq<TargetDescriptor>, i: nat)
    requires i < |targets| && Retains(current, s.selfHandle, targets[i])
    ensures SelectedTarget(Some(current), s, targets).Some?
    ensures SelectedTarget(Some(current), s, targets).value.handle == current.handle
  {
    assert RetainedFrom(current, s.selfHandle, targets, 0).Some?;
  }

  /** The scan for the nearest qualifying candidate: each candidate in the
      frustum has the ray from it to the bot tested hit by hit, and replaces
      the choice only when strictly nearer than every earlier one. */
  method ScanTargets(s: Sight, targets: seq<TargetDescriptor>, current: Option<Target>) returns (chosen: Option<Target>)
    ensures chosen == match Nearest(s, targets, |targets|)
                      case None => current
                      case Some(i) => Some(Target(targets[i].position, targets[i].handle))
  {
    chosen := current;
    var closest: Option<real> := None;
    var k := 0;
    while k < |targets|
      invariant 0 <= k <= |targets|
      invariant Nearest(s, targets, k).None? ==> closest.None? && chosen == current
      invariant Nearest(s, targets, k).Some? ==>
        var b := Nearest(s, targets, k).value;
        closest == Some(SqrDistance(s.position, targets[b].position))
        && chosen == Some(Target(targets[b].position, targets[b].handle))
    {
      var desc := targets[k];
      if desc.handle != s.selfHandle && FrustumContains(s.frustum, desc.position) {
        var hits := s.castRay(desc.position);
        var occluded := false;
        var h := 0;
        while h < |hits| && !occluded
          invariant 0 <= h <= |hits|
          invariant occluded <==> Trimesh in hits[..h]
        {
          // A hit on the bot's own body, or on any collider that is not
          // a triangle mesh, does not hide the candidate.
          if hits[h] == Trimesh {
            occluded := true;
          }
          h := h + 1;
        }
        assert !occluded ==> hits[..h] == hits;
        if !occluded {
          var sqrD := SqrDistance(s.position, desc.position);
          if closest.None? || sqrD < closest.value {
            chosen := Some(Target(desc.position, desc.handle));
            closest := Some(sqrD);
          }
        }
      }
      k := k + 1;
    }
  }

  // ---------------------------------------------------------------------
  // Weapon fallback

  predicate Armed(weapons: seq<Handle>, ammo: map<Handle, nat>) {
    forall i :: 0 <= i < |weapons| ==> weapons[i] in ammo
  }

  /** Index of the first owned weapon at or after i with ammo left. */
  function FirstWithAmmo(weapons: seq<Handle>, ammo: map<Handle, nat>, i: nat): (r: Option<nat>)
    requires Armed(weapons, ammo) && i <= |weapons|
    ensures r.Some? ==> i <= r.value < |weapons| && ammo[weapons[r.value]] > 0
    ensures r.Some? ==> forall j :: i <= j < r.value ==> ammo[weapons[j]] == 0
    ensures r.None? <==> forall j :: i <= j < |weapons| ==> ammo[weapons[j]] == 0
    decreases |weapons| - i
  {
    if i == |weapons| then None
    else if ammo[weapons[i]] > 0 then Some(i)
    else FirstWithAmmo(weapons, ammo, i + 1)
  }

  /** The weapon index after select_weapon. */
  function SelectedWeapon(current: nat, weapons: seq<Handle>, ammo: map<Handle, nat>): (r: nat)
    requires Armed(weapons, ammo)
    ensures r != current ==> current < |weapons| && ammo[weapons[current]] == 0
    ensures r != current ==> r < |weapons| && ammo[weapons[r]] > 0
                             && forall j :: 0 <= j < r ==> ammo[weapons[j]] == 0
    ensures (current < |weapons| && ammo[weapons[current]] == 0
             && exists j :: 0 <= j < |weapons| && ammo[weapons[j]] > 0) ==> r != current
    ensures (forall j :: 0 <= j < |weapons| ==> ammo[weapons[j]] == 0) ==> r == current
  {
    if current < |weapons| && ammo[weapons[current]] == 0 then
      match FirstWithAmmo(weapons, ammo, 0)
      case None => current
      case Some(i) => i
    else current
  }

  // ---------------------------------------------------------------------
  // Path following and planning

  const WAYPOINT_RADIUS: real := 0.75
  const CLOSE_COMBAT_THRESHOLD: real := 0.75
  const REPLAN_INTERVAL: real := 1.0
  const INITIAL_REBUILD_TIME: real := -10.0

  /** The waypoint that becomes the move target, and the cursor after one
      update: it moves on by one when the bot is within the waypoint radius
      and the waypoint is not the last. */
  function Follow(path: seq<Vec3>, cursor: nat, moveTarget: Vec3, position: Vec3): (r: (Vec3, nat))
    ensures r.1 == cursor || r.1 == cursor + 1
    ensures cursor >= |path| ==> r == (moveTarget, cursor)
    ensures cursor < |path| ==> r.0 == path[cursor] && r.1 < |path|
    ensures r.1 == cursor + 1 <==>
      cursor + 1 < |path|
      && SqrDistance(path[cursor], position) <= WAYPOINT_RADIUS * WAYPOINT_RADIUS
  {
    if cursor < |path| then
      var advance := SqrDistance(path[cursor], position) <= WAYPOINT_RADIUS * WAYPOINT_RADIUS
                     && cursor < |path| - 1;
      (path[cursor], if advance then cursor + 1 else cursor)
    else (moveTarget, cursor)
  }

  /** The navigation mesh as an oracle: the nearest vertex to a point (when
      the query finds one) and the vertex path between two vertices (when
      the search succeeds), in the order the search produces it (goal first). */
  datatype Navmesh = Navmesh(closest: map<Vec3, nat>, paths: map<(nat, nat), seq<Vec3>>)

  function QueryClosest(nav: Navmesh, p: Vec3): Option<nat> {
    if p in nav.closest then Some(nav.closest[p]) else None
  }

  function BuildPath(nav: Navmesh, from: nat, to: nat): Option<seq<Vec3>> {
    if (from, to) in nav.paths then Some(nav.paths[(from, to)]) else None
  }

  datatype PathState = PathState(path: seq<Vec3>, cursor: nat, lastRebuild: real)

  predicate CursorValid(ps: PathState) {
    |ps.path| == 0 || ps.cursor < |ps.path|
  }

  /** The navmesh vertices nearest to the bot's feet and to the target,
      when there is a target and both queries find a vertex. */
  function Endpoints(target: Option<Target>, position: Vec3, nav: Navmesh): Option<(nat, nat)> {
    if target.None? then None
    else
      match (QueryClosest(nav, Sub(position, Vec3(0.0, 1.0, 0.0))), QueryClosest(nav, target.value.position))
      case (Some(from), Some(to)) => Some((from, to))
      case _ => None
  }

  /** The result of the path search rebuild_path starts, if it starts one
      and the search succeeds. */
  function Search(target: Option<Target>, position: Vec3, nav: Navmesh): Option<seq<Vec3>> {
    match Endpoints(target, position, nav)
    case None => None
    case Some(e) => BuildPath(nav, e.0, e.1)
  }

  /** rebuild_path: with a target and both endpoints found, the cursor goes
      back to 0; a successful search replaces the path by the reversed
      search result and stamps the time; a failed search keeps the old path
      and the old stamp. */
  function Replan(ps: PathState, target: Option<Target>, position: Vec3, nav: Navmesh, elapsed: real): (r: PathState)
    ensures CursorValid(ps) ==> CursorValid(r)
    ensures Endpoints(target, position, nav).None? ==> r == ps
    ensures Endpoints(target, position, nav).Some? ==> r.cursor == 0
    ensures Search(target, position, nav).Some? ==>
              r.path == Reversed(Search(target, position, nav).value) && r.lastRebuild == elapsed
    ensures Search(target, position, nav).None? ==> r.path == ps.path && r.lastRebuild == ps.lastRebuild
    ensures elapsed != ps.lastRebuild ==> (r.lastRebuild == elapsed <==> Search(target, position, nav).Some?)
  {
    if target.None? then ps
    else
      match (QueryClosest(nav, Sub(position, Vec3(0.0, 1.0, 0.0))), QueryClosest(nav, target.value.position))
      case (Some(from), Some(to)) =>
        (match BuildPath(nav, from, to)
         case Some(p) => PathState(Reversed(p), 0, elapsed)
         case None => ps.(cursor := 0))
      case _ => ps
  }

  /** The re-plan cadence: rebuild_path runs only when at least one interval
      has passed since the last successful plan and a navmesh exists. */
  function PlanTick(ps: PathState, target: Option<Target>, position: Vec3, nav: Option<Navmesh>, elapsed: real): (r: PathState)
    ensures CursorValid(ps) ==> CursorValid(r)
    ensures r != ps ==> elapsed - ps.lastRebuild >= REPLAN_INTERVAL && nav.Some?
    ensures r.lastRebuild != ps.lastRebuild ==> r.lastRebuild == elapsed
    ensures elapsed - ps.lastRebuild >= REPLAN_INTERVAL && nav.Some? ==>
              r == Replan(ps, target, position, nav.value, elapsed)
  {
    if elapsed - ps.lastRebuild >= REPLAN_INTERVAL && nav.Some? then
      Replan(ps, target, position, nav.value, elapsed)
    else ps
  }

  /** Two successive successful plans are at least one interval apart,
      however small the time steps between them. */
  lemma {:induction false} ReplanSpacing(ps: PathState, t1: Option<Target>, p1: Vec3, n1: Option<Navmesh>, e1: real,
                                         t2: Option<Target>, p2: Vec3, n2: Option<Navmesh>, e2: real)
    requires PlanTick(ps, t1, p1, n1, e1).lastRebuild != ps.lastRebuild
    requires PlanTick(PlanTick(ps, t1, p1, n1, e1), t2, p2, n2, e2).lastRebuild
             != PlanTick(ps, t1, p1, n1, e1).lastRebuild
    ensures e2 - e1 >= REPLAN_INTERVAL
  {
    var mid := PlanTick(ps, t1, p1, n1, e1);
    assert mid.lastRebuild == e1;
    assert PlanTick(mid, t2, p2, n2, e2) != mid;
  }

  /** A due tick whose search fails leaves the stamp alone, so every later
      tick with a navmesh is still due and tries again. */
  lemma {:induction false} FailedPlanRetries(ps: PathState, t1: Option<Target>, p1: Vec3, nav: Navmesh, e1: real,
                                             t2: Option<Target>, p2: Vec3, e2: real)
    requires e1 - ps.lastRebuild >= REPLAN_INTERVAL
    requires Search(t1, p1, nav).None?
    requires e2 >= e1
    ensures PlanTick(ps, t1, p1, Some(nav), e1).lastRebuild == ps.lastRebuild
    ensures PlanTick(PlanTick(ps, t1, p1, Some(nav), e1), t2, p2, Some(nav), e2)
            == Replan(PlanTick(ps, t1, p1, Some(nav), e1), t2, p2, nav, e2)
  {
    var mid := PlanTick(ps, t1, p1, Some(nav), e1);
    assert mid == Replan(ps, t1, p1, nav, e1);
    assert mid.lastRebuild == ps.lastRebuild;
  }

  // ---------------------------------------------------------------------
  // Timers

  const RESTORATION_LOCKOUT: real := 0.8
  const ATTACK_COOLDOWN: real := 0.3

  /** The aim-restoration timer before this tick's decrement: a health drop
      since the last tick restarts the lockout. */
  function RestorationStart(restoration: real, lastHealth: real, health: real): real {
    if health < lastHealth then RESTORATION_LOCKOUT else restoration
  }

  /** The restoration timer after a run of ticks with the given time steps,
      each running RestorationStart and then the decrement; the first tick
      sees the health go from lastHealth to health, the later ones see no
      change. */
  function RestorationAfter(restoration: real, lastHealth: real, health: real, steps: seq<real>): real
    requires |steps| > 0
  {
    if |steps| == 1 then RestorationStart(restoration, lastHealth, health) - steps[0]
    else RestorationStart(RestorationAfter(restoration, lastHealth, health, steps[..|steps| - 1]), health, health)
         - steps[|steps| - 1]
  }

  function Sum(steps: seq<real>): real {
    if steps == [] then 0.0 else Sum(steps[..|steps| - 1]) + steps[|steps| - 1]
  }

  /** After a hit the timer counts down from the lockout, so the bot cannot
      aim again before the lockout's worth of time has been spent. */
  lemma {:induction false} LockoutHolds(restoration: real, lastHealth: real, health: real, steps: seq<real>)
    requires |steps| > 0 && health < lastHealth
    ensures RestorationAfter(restoration, lastHealth, health, steps) == RESTORATION_LOCKOUT - Sum(steps)
    ensures Sum(steps) < RESTORATION_LOCKOUT ==>
            !(RestorationStart(RestorationAfter(restoration, lastHealth, health, steps), health, health) <= 0.0)
  {
    if |steps| > 1 {
      LockoutHolds(restoration, lastHealth, health, steps[..|steps| - 1]);
    } else {
      assert steps[..0] == [];
    }
  }

  /** The state of an animation clip the bot drives directly. */
  datatype ClipState = ClipState(enabled: bool, ended: bool)

  /** Restarting a clip enables it and rewinds it, which clears its end flag. */
  const RESTARTED: ClipState := ClipState(true, false)

  /** The melee clip and cooldown after a tick: in close combat with the
      cooldown over and the clip finished or disabled, the clip restarts;
      the cooldown is armed only when strictly negative and the clip has
      ended; then the frame time is subtracted. */
  function AttackStep(timeout: real, inCloseCombat: bool, clip: ClipState, delta: real): (r: (ClipState, real))
    ensures r.1 == (if timeout < 0.0 && r.0.ended then ATTACK_COOLDOWN else timeout) - delta
    ensures r.0 != clip ==> inCloseCombat && timeout <= 0.0 && r.0 == RESTARTED
    ensures inCloseCombat && timeout <= 0.0 && (clip.ended || !clip.enabled) ==> r.0 == RESTARTED
  {
    var restart := inCloseCombat && timeout <= 0.0 && (clip.ended || !clip.enabled);
    var after := if restart then RESTARTED else clip;
    (after, (if timeout < 0.0 && after.ended then ATTACK_COOLDOWN else timeout) - delta)
  }

  /** At a cooldown of exactly zero an ended clip is not re-armed. */
  lemma AttackBoundaryAtZero(delta: real)
    ensures AttackStep(0.0, false, ClipState(true, true), delta).1 == -delta
  {
  }

  // ---------------------------------------------------------------------
  // The bot

  /** Signal ids carried by the clips; the machines that declare them are not
      part of this model, only their distinctness matters here. */
  const HIT_SIGNAL: SignalId := 1
  const STEP_SIGNAL: SignalId := 2

  const EPSILON: real := 0.00000011920929

  datatype LowerBodyInput = LowerBodyInput(walk: bool, scream: bool, dead: bool)

  datatype UpperBodyInput = UpperBodyInput(attack: bool, walk: bool, scream: bool, dead: bool, aim: bool)

  /** Everything the host engine hands the bot for one tick. */
  datatype BotTick = BotTick(
    elapsed: real,
    delta: real,
    position: Vec3,
    targets: seq<TargetDescriptor>,
    castRay: Vec3 -> seq<HitKind>,
    newFrustum: Frustum,
    ammo: map<Handle, nat>,
    hasGroundContact: bool,
    upperInAimState: bool,
    lowerIsWalking: bool,
    attackSignals: seq<SignalId>,
    walkSignals: seq<SignalId>,
    attackClip: ClipState,
    navmesh: Option<Navmesh>)

  /** What one tick produces besides the bot's own state. */
  datatype BotOutput = BotOutput(
    sent: seq<Message>,
    lower: LowerBodyInput,
    upper: UpperBodyInput,
    canAim: bool,
    moving: bool,
    attackClip: ClipState,
    attackSignals: seq<SignalId>,
    walkSignals: seq<SignalId>)

  predicate InCloseCombat(target: Option<Target>, position: Vec3) {
    target.Some?
    && SqrDistance(target.value.position, position) <= CLOSE_COMBAT_THRESHOLD * CLOSE_COMBAT_THRESHOLD
  }

  /** Messages for the melee hits popped from the attack clip. */
  function MeleeMessages(target: Option<Target>, inCloseCombat: bool, damage: real, signals: seq<SignalId>): seq<Message> {
    if target.None? then []
    else Emissions(signals, HIT_SIGNAL, inCloseCombat, DamageActor(target.value.handle, NONE, damage))
  }

  /** Footstep sounds popped from the walk clip while the lower body walks. */
  function StepMessages(walking: bool, grounded: bool, position: Vec3, signals: seq<SignalId>): seq<Message> {
    if !walking then [] else Emissions(signals, STEP_SIGNAL, grounded, PlaySound(position, 1.0, 2.0, 3.0))
  }

  /** The shot a tick sends: only out of close combat, with aim restored,
      allowed to shoot, with a target and a current weapon. */
  function ShotMessages(target: Option<Target>, weapons: seq<Handle>, currentWeapon: nat, position: Vec3,
                        inCloseCombat: bool, canAim: bool, canShoot: bool): (r: seq<Message>)
    ensures |r| <= 1
    ensures r != [] <==> !inCloseCombat && canAim && canShoot && target.Some? && currentWeapon < |weapons|
    ensures r != [] ==> r[0] == ShootWeapon(weapons[currentWeapon], Some(Sub(target.value.position, position)))
  {
    if !inCloseCombat && canAim && canShoot && target.Some? && currentWeapon < |weapons|
    then [ShootWeapon(weapons[currentWeapon], Some(Sub(target.value.position, position)))]
    else []
  }

  /** The waypoint step of a tick: the current waypoint becomes the move
      target, and the cursor moves on once the bot has reached it. */
  method FollowPath(path: seq<Vec3>, cursor: nat, moveTarget: Vec3, position: Vec3) returns (target: Vec3, next: nat)
    ensures (target, next) == Follow(path, cursor, moveTarget, position)
  {
    target, next := moveTarget, cursor;
    if cursor < |path| {
      target := path[cursor];
      if SqrDistance(target, position) <= WAYPOINT_RADIUS * WAYPOINT_RADIUS && cursor < |path| - 1 {
        next := cursor + 1;
      }
    }
  }

  /** The melee step of a tick: restart the attack clip, re-arm the
      cooldown, then spend the frame time. */
  method DriveAttack(timeout: real, inCloseCombat: bool, clip: ClipState, delta: real) returns (after: ClipState, remaining: real)
    ensures (after, remaining) == AttackStep(timeout, inCloseCombat, clip, delta)
  {
    after, remaining := clip, timeout;
    if inCloseCombat {
      if timeout <= 0.0 && (clip.ended || !clip.enabled) {
        after := RESTARTED;
      }
    }
    if remaining < 0.0 && after.ended {
      remaining := ATTACK_COOLDOWN;
    }
    remaining := remaining - delta;
  }

  /** The messages of a tick, in the order they are sent: the shot, the
      melee hits, the footsteps. */
  method TickMessages(tick: BotTick, target: Option<Target>, weapons: seq<Handle>, currentWeapon: nat, damage: real,
                      inCloseCombat: bool, canAim: bool, canShoot: bool) returns (sent: seq<Message>)
    ensures sent == ShotMessages(target, weapons, currentWeapon, tick.position, inCloseCombat, canAim, canShoot)
                    + MeleeMessages(target, inCloseCombat, damage, tick.attackSignals)
                    + StepMessages(tick.lowerIsWalking, tick.hasGroundContact, tick.position, tick.walkSignals)
  {
    var shot: seq<Message> := [];
    if !inCloseCombat && canAim && canShoot && target.Some? {
      if currentWeapon < |weapons| {
        shot := [ShootWeapon(weapons[currentWeapon], Some(Sub(target.value.position, tick.position)))];
      }
    }
    var hits: seq<Message> := [];
    if target.Some? {
      hits := DrainSignals(tick.attackSignals, HIT_SIGNAL, inCloseCombat,
                           DamageActor(target.value.handle, NONE, damage));
    }
    var steps: seq<Message> := [];
    if tick.lowerIsWalking {
      steps := DrainSignals(tick.walkSignals, STEP_SIGNAL, tick.hasGroundContact,
                            PlaySound(tick.position, 1.0, 2.0, 3.0));
    }
    sent := shot + hits + steps;
  }

  class Bot {
    const kind: BotKind
    const definition: BotDefinition
    var health: real
    var weapons: seq<Handle>
    var currentWeapon: nat
    var target: Option<Target>
    var path: seq<Vec3>
    var currentPathPoint: nat
    var moveTarget: Vec3
    var frustum: Frustum
    var lastPathRebuildTime: real
    var restorationTime: real
    var lastHealth: real
    var attackTimeout: real

    ghost predicate Valid()
      reads this
    {
      |path| == 0 || currentPathPoint < |path|
    }

    /** The bookkeeping state of a freshly created bot.  It stores the
        corrected Definition(kind) where the game stores the table entry as
        written; the two differ only in the kind field, which nothing reads
        (the bot's kind is kept separately). */
    constructor (kind: BotKind)
      ensures Valid() && this.kind == kind && definition == Definition(kind)
      ensures health == definition.health && lastHealth == health
      ensures target.None? && path == [] && currentPathPoint == 0
      ensures weapons == [] && currentWeapon == 0
      ensures lastPathRebuildTime == INITIAL_REBUILD_TIME
      ensures restorationTime == 0.0 && attackTimeout == 0.0
    {
      this.kind := kind;
      definition := Definition(kind);
      health := Definition(kind).health;
      lastHealth := Definition(kind).health;
      weapons := [];
      currentWeapon := 0;
      target := None;
      path := [];
      currentPathPoint := 0;
      moveTarget := Vec3(0.0, 0.0, 0.0);
      frustum := Frustum([]);
      lastPathRebuildTime := INITIAL_REBUILD_TIME;
      restorationTime := 0.0;
      attackTimeout := 0.0;
    }

    method SetTarget(handle: Handle, position: Vec3)
      modifies this`target
      ensures target == Some(Target(position, handle))
    {
      target := Some(Target(position, handle));
    }

    /** Forget the target when the actor it names is removed. */
    method OnActorRemoved(handle: Handle)
      modifies this`target
      ensures old(target).Some? && old(target).value.handle == handle ==> target.None?
      ensures !(old(target).Some? && old(target).value.handle == handle) ==> target == old(target)
    {
      if target.Some? {
        if target.value.handle == handle {
          target := None;
        }
      }
    }
    method SelectTarget(s: Sight, targets: seq<TargetDescriptor>)
      modifies this`target
      ensures target == SelectedTarget(old(target), s, targets)
    {
      if target.Some? {
        var i := 0;
        while i < |targets|
          invariant 0 <= i <= |targets|
          invariant RetainedFrom(target.value, s.selfHandle, targets, 0) == RetainedFrom(target.value, s.selfHandle, targets, i)
        {
          var desc := targets[i];
          if desc.handle != s.selfHandle && desc.handle == target.value.handle && desc.health > 0.0 {
            target := Some(target.value.(position := desc.position));
            return;
          }
          i := i + 1;
        }
      }
      target := ScanTargets(s, targets, target);
    }

    method SelectWeapon(ammo: map<Handle, nat>)
      requires Armed(weapons, ammo)
      modifies this`currentWeapon
      ensures currentWeapon == SelectedWeapon(old(currentWeapon), weapons, ammo)
    {
      if currentWeapon < |weapons| && ammo[weapons[currentWeapon]] == 0 {
        var i := 0;
        while i < |weapons|
          invariant 0 <= i <= |weapons|
          invariant FirstWithAmmo(weapons, ammo, 0) == FirstWithAmmo(weapons, ammo, i)
        {
          if ammo[weapons[i]] > 0 {
            currentWeapon := i;
            break;
          }
          i := i + 1;
        }
      }
    }

    method RebuildPath(position: Vec3, nav: Navmesh, elapsed: real)
      modifies this`path, this`currentPathPoint, this`lastPathRebuildTime
      ensures PathState(path, currentPathPoint, lastPathRebuildTime)
              == Replan(old(PathState(path, currentPathPoint, lastPathRebuildTime)), target, position, nav, elapsed)
    {
      if target.Some? {
        var from := Sub(position, Vec3(0.0, 1.0, 0.0));
        var fromIndex := QueryClosest(nav, from);
        if fromIndex.Some? {
          var toIndex := QueryClosest(nav, target.value.position);
          if toIndex.Some? {
            currentPathPoint := 0;
            var built := BuildPath(nav, fromIndex.value, toIndex.value);
            if built.Some? {
              path := Reversed(built.value);
              lastPathRebuildTime := elapsed;
            }
          }
        }
      }
    }

    /** The first half of a tick: choose the target and the weapon, step
        along the path, take the new frustum and account for damage taken. */
    method Perceive(selfHandle: Handle, tick: BotTick) returns (inCloseCombat: bool, canAim: bool)
      requires Valid()
      requires Armed(weapons, tick.ammo)
      modifies this`target, this`currentWeapon, this`moveTarget, this`currentPathPoint, this`frustum,
               this`restorationTime, this`lastHealth
      ensures Valid()
      ensures target == SelectedTarget(old(target), Sight(selfHandle, tick.position, old(frustum), tick.castRay), tick.targets)
      ensures currentWeapon == SelectedWeapon(old(currentWeapon), weapons, tick.ammo)
      ensures inCloseCombat == InCloseCombat(target, tick.position)
      ensures (moveTarget, currentPathPoint) == Follow(path, old(currentPathPoint), old(moveTarget), tick.position)
      ensures frustum == tick.newFrustum
      ensures restorationTime == RestorationStart(old(restorationTime), old(lastHealth), health)
      ensures canAim == (restorationTime <= 0.0)
      ensures lastHealth == health
    {
      SelectTarget(Sight(selfHandle, tick.position, frustum, tick.castRay), tick.targets);
      SelectWeapon(tick.ammo);
      inCloseCombat := InCloseCombat(target, tick.position);
      moveTarget, currentPathPoint := FollowPath(path, currentPathPoint, moveTarget, tick.position);
      frustum := tick.newFrustum;
      if health < lastHealth {
        restorationTime := RESTORATION_LOCKOUT;
      }
      canAim := restorationTime <= 0.0;
      lastHealth := health;
    }

    /** The re-plan step of a tick: at most once per interval, and only
        with a navmesh. */
    method PlanPath(position: Vec3, navmesh: Option<Navmesh>, elapsed: real)
      requires Valid()
      modifies this`path, this`currentPathPoint, this`lastPathRebuildTime
      ensures Valid()
      ensures PathState(path, currentPathPoint, lastPathRebuildTime)
              == PlanTick(old(PathState(path, currentPathPoint, lastPathRebuildTime)), target, position, navmesh, elapsed)
    {
      if elapsed - lastPathRebuildTime >= REPLAN_INTERVAL && navmesh.Some? {
        RebuildPath(position, navmesh.value, elapsed);
      }
    }

    /** The end of a tick: run down the aim lockout, feed the machines and
        drive the melee clip (disabled first if the bot is dead). */
    method Animate(tick: BotTick, inCloseCombat: bool, canAim: bool) returns (lower: LowerBodyInput, upper: UpperBodyInput, clip: ClipState)
      modifies this`restorationTime, this`attackTimeout
      ensures restorationTime == old(restorationTime) - tick.delta
      ensures lower == LowerBodyInput(IsMoving(inCloseCombat, tick.position), false, health <= 0.0)
      ensures upper == UpperBodyInput(inCloseCombat && old(attackTimeout) <= 0.0, IsMoving(inCloseCombat, tick.position),
                                      false, health <= 0.0, definition.canUseWeapons && canAim)
      ensures (clip, attackTimeout)
              == AttackStep(old(attackTimeout), inCloseCombat,
                            if health <= 0.0 then tick.attackClip.(enabled := false) else tick.attackClip, tick.delta)
    {
      var dead := health <= 0.0;
      clip := if dead then tick.attackClip.(enabled := false) else tick.attackClip;
      restorationTime := restorationTime - tick.delta;
      var isMoving := IsMoving(inCloseCombat, tick.position);
      lower := LowerBodyInput(isMoving, false, dead);
      upper := UpperBodyInput(inCloseCombat && attackTimeout <= 0.0, isMoving, false, dead,
                              definition.canUseWeapons && canAim);
      clip, attackTimeout := DriveAttack(attackTimeout, inCloseCombat, clip, tick.delta);
    }

    /** The bot walks while alive, out of close combat, with a target and a
        move target it has not reached. */
    predicate IsMoving(inCloseCombat: bool, position: Vec3)
      reads this
    {
      health > 0.0 && !inCloseCombat && target.Some? && SqrDistance(moveTarget, position) > EPSILON * EPSILON
    }

    /** The second half of a tick: send the messages, re-plan, run down the
        aim lockout, feed the machines and drive the melee clip. */
    method Respond(tick: BotTick, inCloseCombat: bool, canAim: bool) returns (out: BotOutput)
      requires Valid()
      modifies this`path, this`currentPathPoint, this`lastPathRebuildTime, this`restorationTime, this`attackTimeout
      ensures Valid()
      ensures PathState(path, currentPathPoint, lastPathRebuildTime)
              == PlanTick(old(PathState(path, currentPathPoint, lastPathRebuildTime)), target, tick.position, tick.navmesh, tick.elapsed)
      ensures restorationTime == old(restorationTime) - tick.delta
      ensures out.canAim == canAim
      ensures out.moving == IsMoving(inCloseCombat, tick.position)
      ensures out.lower == LowerBodyInput(out.moving, false, health <= 0.0)
      ensures out.upper == UpperBodyInput(inCloseCombat && old(attackTimeout) <= 0.0, out.moving, false, health <= 0.0,
                                          definition.canUseWeapons && canAim)
      ensures (out.attackClip, attackTimeout)
              == AttackStep(old(attackTimeout), inCloseCombat,
                            if health <= 0.0 then tick.attackClip.(enabled := false) else tick.attackClip, tick.delta)
      ensures out.sent == ShotMessages(target, weapons, currentWeapon, tick.position, inCloseCombat, canAim,
                                       CanShoot(definition, tick.upperInAimState))
                          + MeleeMessages(target, inCloseCombat, definition.attackDamage, tick.attackSignals)
                          + StepMessages(tick.lowerIsWalking, tick.hasGroundContact, tick.position, tick.walkSignals)
      ensures out.attackSignals == (if target.Some? then [] else tick.attackSignals)
      ensures out.walkSignals == (if tick.lowerIsWalking then [] else tick.walkSignals)
    {
      var moving := IsMoving(inCloseCombat, tick.position);
      var sent := TickMessages(tick, target, weapons, currentWeapon, definition.attackDamage, inCloseCombat, canAim,
                               CanShoot(definition, tick.upperInAimState));
      var attackSignals := if target.Some? then [] else tick.attackSignals;
      var walkSignals := if tick.lowerIsWalking then [] else tick.walkSignals;
      PlanPath(tick.position, tick.navmesh, tick.elapsed);
      var lower, upper, clip := Animate(tick, inCloseCombat, canAim);
      out := BotOutput(sent, lower, upper, canAim, moving, clip, attackSignals, walkSignals);
    }

    /** One decision tick. */
    method Update(selfHandle: Handle, tick: BotTick) returns (out: BotOutput)
      requires Valid()
      requires Armed(weapons, tick.ammo)
      modifies this`target, this`currentWeapon, this`moveTarget, this`currentPathPoint, this`frustum,
               this`restorationTime, this`lastHealth, this`path, this`lastPathRebuildTime, this`attackTimeout
      ensures Valid()
      ensures target == SelectedTarget(old(target), Sight(selfHandle, tick.position, old(frustum), tick.castRay), tick.targets)
      ensures currentWeapon == SelectedWeapon(old(currentWeapon), weapons, tick.ammo)
      ensures frustum == tick.newFrustum
      ensures var f := Follow(old(path), old(currentPathPoint), old(moveTarget), tick.position);
              moveTarget == f.0
              && PathState(path, currentPathPoint, lastPathRebuildTime)
                 == PlanTick(PathState(old(path), f.1, old(lastPathRebuildTime)), target, tick.position, tick.navmesh, tick.elapsed)
      ensures lastHealth == health
      ensures out.canAim == (RestorationStart(old(restorationTime), old(lastHealth), health) <= 0.0)
      ensures restorationTime == RestorationStart(old(restorationTime), old(lastHealth), health) - tick.delta
      ensures out.moving == IsMoving(InCloseCombat(target, tick.position), tick.position)
      ensures out.lower == LowerBodyInput(out.moving, false, health <= 0.0)
      ensures out.upper == UpperBodyInput(InCloseCombat(target, tick.position) && old(attackTimeout) <= 0.0,
                                          out.moving, false, health <= 0.0, definition.canUseWeapons && out.canAim)
      ensures (out.attackClip, attackTimeout)
              == AttackStep(old(attackTimeout), InCloseCombat(target, tick.position),
                            if health <= 0.0 then tick.attackClip.(enabled := false) else tick.attackClip, tick.delta)
      ensures out.sent == ShotMessages(target, weapons, currentWeapon, tick.position, InCloseCombat(target, tick.position),
                                       out.canAim, CanShoot(definition, tick.upperInAimState))
                          + MeleeMessages(target, InCloseCombat(target, tick.position), definition.attackDamage, tick.attackSignals)
                          + StepMessages(tick.lowerIsWalking, tick.hasGroundContact, tick.position, tick.walkSignals)
      ensures out.attackSignals == (if target.Some? then [] else tick.attackSignals)
      ensures out.walkSignals == (if tick.lowerIsWalking then [] else tick.walkSignals)
    {
      var inCloseCombat, canAim := Perceive(selfHandle, tick);
      out := Respond(tick, inCloseCombat, canAim);
    }
  }
}
