/** The level: the containers of actors, weapons, projectiles, items, spawn
    points and death zones, the scene analysis that fills them, and the
    bookkeeping done when items are given, weapons and actors removed, bots
    spawned and actors damaged. */
module GameLevel {
  import opened Common
  import BotAI

  // ---------------------------------------------------------------------
  // Item and weapon kinds
  // ---------------------------------------------------------------------

  datatype WeaponKind = M4 | Ak47 | PlasmaRifle

  datatype ItemKind = Medkit | Plasma | Ak47Ammo | M4Ammo | M4 | Ak47 | PlasmaGun | RocketLauncher

  /** Items that grant a weapon when given to an actor. */
  predicate IsWeaponItem(kind: ItemKind) {
    kind.M4? || kind.Ak47? || kind.PlasmaGun? || kind.RocketLauncher?
  }

  /** Items that refill the ammo of a weapon. */
  predicate IsAmmoItem(kind: ItemKind) {
    kind.Plasma? || kind.Ak47Ammo? || kind.M4Ammo?
  }

  /** The item left behind when an actor holding a weapon of this kind is
      removed. */
  function ItemForWeapon(kind: WeaponKind): (item: ItemKind)
    ensures IsWeaponItem(item) && !item.RocketLauncher?
    ensures WeaponForItem(item) == Ok(kind)
  {
    match kind
    case M4 => ItemKind.M4
    case Ak47 => ItemKind.Ak47
    case PlasmaRifle => PlasmaGun
  }

  /** The weapon a weapon item grants.  The rocket launcher has no weapon
      kind behind it: giving one is unreachable in the game, an error here,
      and so is asking for the weapon of a non-weapon item. */
  function WeaponForItem(kind: ItemKind): (r: Result<WeaponKind>)
    ensures r.Ok? <==> IsWeaponItem(kind) && !kind.RocketLauncher?
  {
    match kind
    case M4 => Ok(WeaponKind.M4)
    case Ak47 => Ok(WeaponKind.Ak47)
    case PlasmaGun => Ok(PlasmaRifle)
    case _ => Err("unreachable item kind")
  }

  /** Every weapon item other than the rocket launcher is the drop of the
      weapon it grants. */
  lemma WeaponItemRoundTrip(kind: ItemKind)
    requires WeaponForItem(kind).Ok?
    ensures ItemForWeapon(WeaponForItem(kind).value) == kind
  {
  }

  /** The weapon kind an ammo item refills. */
  function AmmoTarget(kind: ItemKind): (r: Option<WeaponKind>)
    ensures r.Some? <==> IsAmmoItem(kind)
  {
    match kind
    case Plasma => Some(PlasmaRifle)
    case Ak47Ammo => Some(WeaponKind.Ak47)
    case M4Ammo => Some(WeaponKind.M4)
    case _ => Option.None
  }

  /** Distinct ammo items refill distinct weapon kinds, one for each. */
  lemma AmmoTargetBijective(a: ItemKind, b: ItemKind, w: WeaponKind)
    ensures AmmoTarget(a).Some? && AmmoTarget(b).Some? && AmmoTarget(a) == AmmoTarget(b) ==> a == b
    ensures exists k :: AmmoTarget(k) == Some(w)
  {
    match w
    case M4 => assert AmmoTarget(M4Ammo) == Some(w);
    case Ak47 => assert AmmoTarget(Ak47Ammo) == Some(w);
    case PlasmaRifle => assert AmmoTarget(Plasma) == Some(w);
  }

  const MEDKIT_HEAL: real := 20.0
  const AMMO_PACK: nat := 200
  const LETHAL_DAMAGE: real := 99999.0

  // ---------------------------------------------------------------------
  // Scene analysis
  // ---------------------------------------------------------------------

  /** An axis-aligned box, closed on every side. */
  datatype Aabb = Aabb(min: Vec3, max: Vec3)

  predicate Contains(b: Aabb, p: Vec3) {
    b.min.x <= p.x <= b.max.x && b.min.y <= p.y <= b.max.y && b.min.z <= p.z <= b.max.z
  }

  /** A scene node as the analysis sees it: its name, global position,
      whether it is a mesh, and its world bounding box. */
  datatype SceneNode = SceneNode(name: string, position: Vec3, isMesh: bool, bounds: Aabb)

  datatype Category =
    | ItemNode(item: ItemKind)
    | SpawnNode(bot: BotAI.BotKind)
    | PlayerSpawnNode
    | DeathZoneNode
    | Unclassified

  predicate StartsWith(s: string, prefix: string) {
    |prefix| <= |s| && s[..|prefix|] == prefix
  }

  /** The name prefixes the analysis tests, in the order it tests them. */
  const RULES: seq<(string, Category)> := [
    ("Medkit", ItemNode(Medkit)),
    ("Ammo_Ak47", ItemNode(Ak47Ammo)),
    ("Ammo_M4", ItemNode(M4Ammo)),
    ("Ammo_Plasma", ItemNode(Plasma)),
    ("Zombie", SpawnNode(BotAI.Zombie)),
    ("Mutant", SpawnNode(BotAI.Mutant)),
    ("Parasite", SpawnNode(BotAI.Parasite)),
    ("PlayerSpawnPoint", PlayerSpawnNode),
    ("DeathZone", DeathZoneNode)
  ]

  /** The category of the first rule whose prefix the name starts with. */
  function FirstRule(rules: seq<(string, Category)>, name: string): Category {
    if rules == [] then Unclassified
    else if StartsWith(name, rules[0].0) then rules[0].1
    else FirstRule(rules[1..], name)
  }

  /** The if-chain of the analysis over a node's name. */
  function Classify(name: string): (c: Category) {
    if StartsWith(name, "Medkit") then ItemNode(Medkit)
    else if StartsWith(name, "Ammo_Ak47") then ItemNode(Ak47Ammo)
    else if StartsWith(name, "Ammo_M4") then ItemNode(M4Ammo)
    else if StartsWith(name, "Ammo_Plasma") then ItemNode(Plasma)
    else if StartsWith(name, "Zombie") then SpawnNode(BotAI.Zombie)
    else if StartsWith(name, "Mutant") then SpawnNode(BotAI.Mutant)
    else if StartsWith(name, "Parasite") then SpawnNode(BotAI.Parasite)
    else if StartsWith(name, "PlayerSpawnPoint") then PlayerSpawnNode
    else if StartsWith(name, "DeathZone") then DeathZoneNode
    else Unclassified
  }

  /** The if-chain decides as the first matching rule does. */
  lemma ClassifyIsFirstRule(name: string)
    ensures Classify(name) == FirstRule(RULES, name)
  {
    assert RULES[0..] == RULES;
    assert FirstRule(RULES[0..], name) == if StartsWith(name, RULES[0].0) then RULES[0].1 else FirstRule(RULES[1..], name)
      by { assert RULES[0..][0] == RULES[0] && RULES[0..][1..] == RULES[1..]; }
    assert FirstRule(RULES[1..], name) == if StartsWith(name, RULES[1].0) then RULES[1].1 else FirstRule(RULES[2..], name)
      by { assert RULES[1..][0] == RULES[1] && RULES[1..][1..] == RULES[2..]; }
    assert FirstRule(RULES[2..], name) == if StartsWith(name, RULES[2].0) then RULES[2].1 else FirstRule(RULES[3..], name)
      by { assert RULES[2..][0] == RULES[2] && RULES[2..][1..] == RULES[3..]; }
    assert FirstRule(RULES[3..], name) == if StartsWith(name, RULES[3].0) then RULES[3].1 else FirstRule(RULES[4..], name)
      by { assert RULES[3..][0] == RULES[3] && RULES[3..][1..] == RULES[4..]; }
    assert FirstRule(RULES[4..], name) == if StartsWith(name, RULES[4].0) then RULES[4].1 else FirstRule(RULES[5..], name)
      by { assert RULES[4..][0] == RULES[4] && RULES[4..][1..] == RULES[5..]; }
    assert FirstRule(RULES[5..], name) == if StartsWith(name, RULES[5].0) then RULES[5].1 else FirstRule(RULES[6..], name)
      by { assert RULES[5..][0] == RULES[5] && RULES[5..][1..] == RULES[6..]; }
    assert FirstRule(RULES[6..], name) == if StartsWith(name, RULES[6].0) then RULES[6].1 else FirstRule(RULES[7..], name)
      by { assert RULES[6..][0] == RULES[6] && RULES[6..][1..] == RULES[7..]; }
    assert FirstRule(RULES[7..], name) == if StartsWith(name, RULES[7].0) then RULES[7].1 else FirstRule(RULES[8..], name)
      by { assert RULES[7..][0] == RULES[7] && RULES[7..][1..] == RULES[8..]; }
    assert FirstRule(RULES[8..], name) == if StartsWith(name, RULES[8].0) then RULES[8].1 else FirstRule(RULES[9..], name)
      by { assert RULES[8..][0] == RULES[8] && RULES[8..][1..] == RULES[9..]; }
    assert RULES[9..] == [];
  }

  /** No rule's prefix starts with another's, so at most one rule matches
      any name and the test order never matters.  Characters 0, 1 and 5
      already tell the nine prefixes apart. */
  lemma {:induction false} RulesExclusive(name: string, i: nat, j: nat)
    requires i < j < |RULES|
    ensures !(StartsWith(name, RULES[i].0) && StartsWith(name, RULES[j].0))
  {
    if StartsWith(name, RULES[i].0) && StartsWith(name, RULES[j].0) {
      SharedKey(name, RULES[i].0, RULES[j].0);
      assert false;
    }
  }

  /** Two prefixes of one name agree on every character both have. */
  lemma SharedKey(name: string, p: string, q: string)
    requires StartsWith(name, p) && StartsWith(name, q) && |p| >= 6 && |q| >= 6
    ensures p[0] == q[0] && p[1] == q[1] && p[5] == q[5]
  {
    assert p[0] == name[..|p|][0] && q[0] == name[..|q|][0];
    assert p[1] == name[..|p|][1] && q[1] == name[..|q|][1];
    assert p[5] == name[..|p|][5] && q[5] == name[..|q|][5];
  }

  /** A name starting with a rule's prefix is classified by that rule. */
  lemma {:induction false} ClassifyByAnyMatch(name: string, i: nat)
    requires i < |RULES| && StartsWith(name, RULES[i].0)
    ensures Classify(name) == RULES[i].1
  {
    ClassifyIsFirstRule(name);
    forall j | 0 <= j < i
      ensures !StartsWith(name, RULES[j].0)
    {
      RulesExclusive(name, j, i);
    }
    FirstRuleAt(RULES, name, i);
  }

  lemma {:induction false} FirstRuleAt(rules: seq<(string, Category)>, name: string, i: nat)
    requires i < |rules| && StartsWith(name, rules[i].0)
    requires forall j :: 0 <= j < i ==> !StartsWith(name, rules[j].0)
    ensures FirstRule(rules, name) == rules[i].1
  {
    if i > 0 {
      FirstRuleAt(rules[1..], name, i - 1);
    }
  }

  datatype Item = Item(kind: ItemKind, position: Vec3)

  datatype SpawnPoint = SpawnPoint(position: Vec3, botKind: BotAI.BotKind, spawned: bool)

  /** What the analysis of a scene yields. */
  datatype Analysis = Analysis(items: seq<Item>, deathZones: seq<Aabb>, spawnPoints: seq<SpawnPoint>, playerSpawn: Vec3)

  const ORIGIN: Vec3 := Vec3(0.0, 0.0, 0.0)
  const NO_ANALYSIS: Analysis := Analysis([], [], [], ORIGIN)

  /** What one node adds to the analysis. */
  function Contribute(a: Analysis, node: SceneNode): Analysis {
    match Classify(node.name)
    case ItemNode(kind) => a.(items := a.items + [Item(kind, node.position)])
    case SpawnNode(kind) => a.(spawnPoints := a.spawnPoints + [SpawnPoint(node.position, kind, false)])
    case PlayerSpawnNode => a.(playerSpawn := node.position)
    case DeathZoneNode => if node.isMesh then a.(deathZones := a.deathZones + [node.bounds]) else a
    case Unclassified => a
  }

  /** The analysis of the nodes in graph order. */
  function AnalysisOf(nodes: seq<SceneNode>): Analysis {
    if nodes == [] then NO_ANALYSIS
    else Contribute(AnalysisOf(nodes[..|nodes| - 1]), nodes[|nodes| - 1])
  }

  /** Visits the scene graph once, sorting nodes by name prefix. */
  method Analyze(nodes: seq<SceneNode>) returns (result: Analysis)
    ensures result == AnalysisOf(nodes)
  {
    var items: seq<Item> := [];
    var spawnPoints: seq<SpawnPoint> := [];
    var deathZones: seq<Aabb> := [];
    var playerSpawn := ORIGIN;
    var k := 0;
    while k < |nodes|
      invariant 0 <= k <= |nodes|
      invariant Analysis(items, deathZones, spawnPoints, playerSpawn) == AnalysisOf(nodes[..k])
    {
      var node := nodes[k];
      var category := Classify(node.name);
      match category {
        case ItemNode(kind) =>
          items := items + [Item(kind, node.position)];
        case SpawnNode(kind) =>
          spawnPoints := spawnPoints + [SpawnPoint(node.position, kind, false)];
        case PlayerSpawnNode =>
          playerSpawn := node.position;
        case DeathZoneNode =>
          if node.isMesh {
            deathZones := deathZones + [node.bounds];
          }
        case Unclassified =>
      }
      assert nodes[..k + 1][..k] == nodes[..k];
      k := k + 1;
    }
    assert nodes[..k] == nodes;
    result := Analysis(items, deathZones, spawnPoints, playerSpawn);
  }

  /** Number of nodes whose name falls in the given category. */
  function CountCategory(nodes: seq<SceneNode>, c: Category): nat {
    if nodes == [] then 0
    else CountCategory(nodes[..|nodes| - 1], c) + (if Classify(nodes[|nodes| - 1].name) == c then 1 else 0)
  }

  /** One spawn point, not yet spawned, per bot-named node. */
  lemma {:induction false} AnalysisSpawnPoints(nodes: seq<SceneNode>, kind: BotAI.BotKind)
    ensures forall sp :: sp in AnalysisOf(nodes).spawnPoints ==> !sp.spawned
    ensures Count(KindsOf(AnalysisOf(nodes).spawnPoints), kind) == CountCategory(nodes, SpawnNode(kind))
  {
    if nodes != [] {
      var init := nodes[..|nodes| - 1];
      var last := nodes[|nodes| - 1];
      AnalysisSpawnPoints(init, kind);
      var before := AnalysisOf(init).spawnPoints;
      if Classify(last.name).SpawnNode? {
        var sp := SpawnPoint(last.position, Classify(last.name).bot, false);
        assert KindsOf(before + [sp]) == KindsOf(before) + [sp.botKind];
        CountAppend(KindsOf(before), [sp.botKind], kind);
      }
    }
  }

  /** One item per item-named node, at the node's position, of the kind its
      name selects. */
  lemma {:induction false} AnalysisItems(nodes: seq<SceneNode>, kind: ItemKind)
    ensures Count(ItemKindsOf(AnalysisOf(nodes).items), kind) == CountCategory(nodes, ItemNode(kind))
    ensures forall it :: it in AnalysisOf(nodes).items ==>
              exists i :: 0 <= i < |nodes| && Classify(nodes[i].name) == ItemNode(it.kind) && nodes[i].position == it.position
  {
    if nodes != [] {
      var init := nodes[..|nodes| - 1];
      var last := nodes[|nodes| - 1];
      AnalysisItems(init, kind);
      assert forall i :: 0 <= i < |init| ==> init[i] == nodes[i];
      var before := AnalysisOf(init).items;
      if Classify(last.name).ItemNode? {
        var it := Item(Classify(last.name).item, last.position);
        assert ItemKindsOf(before + [it]) == ItemKindsOf(before) + [it.kind];
        CountAppend(ItemKindsOf(before), [it.kind], kind);
      }
    }
  }

  function ItemKindsOf(items: seq<Item>): (r: seq<ItemKind>)
    ensures |r| == |items| && forall i :: 0 <= i < |items| ==> r[i] == items[i].kind
  {
    seq(|items|, i requires 0 <= i < |items| => items[i].kind)
  }

  function KindsOf(sps: seq<SpawnPoint>): (r: seq<BotAI.BotKind>)
    ensures |r| == |sps| && forall i :: 0 <= i < |sps| ==> r[i] == sps[i].botKind
  {
    seq(|sps|, i requires 0 <= i < |sps| => sps[i].botKind)
  }

  /** Without a node named as the player spawn point the player spawns at
      the origin. */
  lemma {:induction false} PlayerSpawnDefault(nodes: seq<SceneNode>)
    requires forall i :: 0 <= i < |nodes| ==> Classify(nodes[i].name) != PlayerSpawnNode
    ensures AnalysisOf(nodes).playerSpawn == ORIGIN
  {
    if nodes != [] {
      PlayerSpawnDefault(nodes[..|nodes| - 1]);
    }
  }

  /** The player spawns at the last node named as the player spawn point. */
  lemma {:induction false} PlayerSpawnIsLast(nodes: seq<SceneNode>, i: nat)
    requires i < |nodes| && Classify(nodes[i].name) == PlayerSpawnNode
    requires forall j :: i < j < |nodes| ==> Classify(nodes[j].name) != PlayerSpawnNode
    ensures AnalysisOf(nodes).playerSpawn == nodes[i].position
  {
    if i < |nodes| - 1 {
      var init := nodes[..|nodes| - 1];
      assert init[i] == nodes[i];
      assert forall j :: i < j < |init| ==> init[j] == nodes[j];
      PlayerSpawnIsLast(init, i);
    }
  }

  /** The bounds of the mesh nodes named as death zones, in node order. */
  function ZoneBounds(nodes: seq<SceneNode>): seq<Aabb> {
    if nodes == [] then []
    else (if nodes[0].isMesh && Classify(nodes[0].name) == DeathZoneNode then [nodes[0].bounds] else [])
         + ZoneBounds(nodes[1..])
  }

  lemma {:induction false} ZoneBoundsAppend(nodes: seq<SceneNode>, n: SceneNode)
    ensures ZoneBounds(nodes + [n])
            == ZoneBounds(nodes) + (if n.isMesh && Classify(n.name) == DeathZoneNode then [n.bounds] else [])
  {
    if nodes != [] {
      assert (nodes + [n])[1..] == nodes[1..] + [n];
      ZoneBoundsAppend(nodes[1..], n);
    }
  }

  /** Every mesh node named as a death zone contributes its bounds, and
      nothing else does, in node order. */
  lemma {:induction false} DeathZonesInOrder(nodes: seq<SceneNode>)
    ensures AnalysisOf(nodes).deathZones == ZoneBounds(nodes)
  {
    if nodes != [] {
      var init := nodes[..|nodes| - 1];
      DeathZonesInOrder(init);
      ZoneBoundsAppend(init, nodes[|nodes| - 1]);
      assert init + [nodes[|nodes| - 1]] == nodes;
    }
  }

  /** Death zones come only from mesh nodes named as death zones. */
  lemma {:induction false} DeathZonesFromMeshes(nodes: seq<SceneNode>)
    ensures forall z :: z in AnalysisOf(nodes).deathZones ==>
              exists i :: 0 <= i < |nodes| && nodes[i].isMesh && Classify(nodes[i].name) == DeathZoneNode
                          && nodes[i].bounds == z
  {
    if nodes != [] {
      var init := nodes[..|nodes| - 1];
      DeathZonesFromMeshes(init);
      assert forall i :: 0 <= i < |init| ==> init[i] == nodes[i];
    }
  }

  // ---------------------------------------------------------------------
  // Spawn point persistence
  // ---------------------------------------------------------------------

  /** A spawn point as it is written: the bot kind goes out as its id. */
  datatype SpawnPointRecord = SpawnPointRecord(position: Vec3, spawned: bool, botKind: int)

  function EncodeSpawnPoint(sp: SpawnPoint): (r: SpawnPointRecord)
    ensures r.position == sp.position && r.spawned == sp.spawned
    ensures 0 <= r.botKind <= 2
  {
    SpawnPointRecord(sp.position, sp.spawned, BotAI.KindId(sp.botKind))
  }

  /** Reading fails exactly when the stored id names no bot kind. */
  function DecodeSpawnPoint(r: SpawnPointRecord): (s: Result<SpawnPoint>)
    ensures s.Ok? <==> 0 <= r.botKind <= 2
    ensures s.Ok? ==> s.value.position == r.position && s.value.spawned == r.spawned
  {
    match BotAI.KindFromId(r.botKind)
    case Ok(kind) => Ok(SpawnPoint(r.position, kind, r.spawned))
    case Err(e) => Err(e)
  }

  lemma SpawnPointRoundTrip(sp: SpawnPoint)
    ensures DecodeSpawnPoint(EncodeSpawnPoint(sp)) == Ok(sp)
  {
  }

  lemma SpawnPointRecordRoundTrip(r: SpawnPointRecord)
    requires DecodeSpawnPoint(r).Ok?
    ensures EncodeSpawnPoint(DecodeSpawnPoint(r).value) == r
  {
    BotAI.KindFromIdInverse(r.botKind);
  }

  // ---------------------------------------------------------------------
  // Containers
  // ---------------------------------------------------------------------

  datatype Weapon = Weapon(kind: WeaponKind, ammo: nat, owner: Handle)

  datatype Projectile = Projectile(kind: ProjectileKind, owner: Handle)

  /** The level's view of an actor: a bot knows its kind and its target. */
  datatype Role = BotRole(kind: BotAI.BotKind, target: Option<Target>) | PlayerRole

  datatype Actor = Actor(role: Role, health: real, position: Vec3, weapons: seq<Handle>)

  /** Index of the first weapon of the given kind among the handles. */
  function FirstOfKind(hs: seq<Handle>, weapons: map<Handle, Weapon>, kind: WeaponKind): (r: Option<nat>)
    requires forall i :: 0 <= i < |hs| ==> hs[i] in weapons
    ensures r.Some? ==> r.value < |hs| && weapons[hs[r.value]].kind == kind
                        && forall j :: 0 <= j < r.value ==> weapons[hs[j]].kind != kind
    ensures r.None? ==> forall j :: 0 <= j < |hs| ==> weapons[hs[j]].kind != kind
  {
    if hs == [] then Option.None
    else if weapons[hs[0]].kind == kind then Some(0)
    else match FirstOfKind(hs[1..], weapons, kind)
      case Some(i) => Some(i + 1)
      case None => Option.None
  }

  /** The weapon map with one more ammo pack in w. */
  function WithAmmo(weapons: map<Handle, Weapon>, w: Handle): map<Handle, Weapon>
    requires w in weapons
  {
    weapons[w := weapons[w].(ammo := weapons[w].ammo + AMMO_PACK)]
  }

  /** The projectiles after the weapons in ws are freed: their owner handles
      are reset, every other projectile is left as it was. */
  function ClearedOwners(ps: seq<Projectile>, ws: seq<Handle>): (r: seq<Projectile>)
    ensures |r| == |ps|
    ensures forall i :: 0 <= i < |ps| ==> r[i] == (if ps[i].owner in ws then ps[i].(owner := NONE) else ps[i])
  {
    seq(|ps|, i requires 0 <= i < |ps| => if ps[i].owner in ws then ps[i].(owner := NONE) else ps[i])
  }

  /** The items dropped for the weapons in ws, all at one place. */
  function Drops(ws: seq<Handle>, weapons: map<Handle, Weapon>, at: Vec3): (r: seq<Item>)
    requires forall i :: 0 <= i < |ws| ==> ws[i] in weapons
    ensures |r| == |ws|
    ensures forall i :: 0 <= i < |ws| ==> r[i] == Item(ItemForWeapon(weapons[ws[i]].kind), at)
  {
    seq(|ws|, i requires 0 <= i < |ws| => Item(ItemForWeapon(weapons[ws[i]].kind), at))
  }

  function Elements(s: seq<Handle>): set<Handle> {
    set h | h in s
  }

  /** s with every occurrence of h taken out, order kept. */
  function Without(s: seq<Handle>, h: Handle): (r: seq<Handle>)
    ensures forall x :: x in r <==> x in s && x != h
    ensures |r| <= |s|
  {
    if s == [] then []
    else (if s[0] == h then [] else [s[0]]) + Without(s[1..], h)
  }

  predicate Distinct(s: seq<Handle>) {
    forall i, j :: 0 <= i < j < |s| ==> s[i] != s[j]
  }

  lemma DistinctAppend(s: seq<Handle>, h: Handle)
    requires Distinct(s) && h !in s
    ensures Distinct(s + [h])
  {
  }

  lemma {:induction false} WithoutDistinct(s: seq<Handle>, h: Handle)
    requires Distinct(s)
    ensures Distinct(Without(s, h))
  {
    if s != [] {
      WithoutDistinct(s[1..], h);
      assert Distinct(s[1..]);
      assert s[0] !in s[1..];
    }
  }

  /** Death-zone damage for one actor: a lethal hit per containing zone. */
  function ZoneHits(h: Handle, p: Vec3, zones: seq<Aabb>): (r: seq<Message>) {
    if zones == [] then []
    else (if Contains(zones[0], p) then [DamageActor(h, NONE, LETHAL_DAMAGE)] else []) + ZoneHits(h, p, zones[1..])
  }

  /** Death-zone damage for the actors in order. */
  function ZoneDamage(order: seq<Handle>, actors: map<Handle, Actor>, zones: seq<Aabb>): seq<Message>
    requires forall i :: 0 <= i < |order| ==> order[i] in actors
  {
    if order == [] then []
    else ZoneHits(order[0], actors[order[0]].position, zones) + ZoneDamage(order[1..], actors, zones)
  }

  /** Number of zones containing p. */
  function ZonesContaining(p: Vec3, zones: seq<Aabb>): nat {
    if zones == [] then 0 else (if Contains(zones[0], p) then 1 else 0) + ZonesContaining(p, zones[1..])
  }

  lemma {:induction false} ZoneHitsExact(h: Handle, p: Vec3, zones: seq<Aabb>)
    ensures |ZoneHits(h, p, zones)| == ZonesContaining(p, zones)
    ensures forall m :: m in ZoneHits(h, p, zones) ==> m == DamageActor(h, NONE, LETHAL_DAMAGE)
    ensures (exists z :: z in zones && Contains(z, p)) <==> ZoneHits(h, p, zones) != []
  {
    if zones != [] {
      ZoneHitsExact(h, p, zones[1..]);
      if Contains(zones[0], p) {
        assert DamageActor(h, NONE, LETHAL_DAMAGE) in ZoneHits(h, p, zones);
      } else if ZoneHits(h, p, zones) != [] {
        var z :| z in zones[1..] && Contains(z, p);
        assert z in zones;
      }
    }
  }

  /** Death zones kill exactly the actors standing in them: every message
      is a lethal hit on a listed actor inside some zone, and every such
      actor gets one hit per zone it stands in. */
  lemma {:induction false} ZoneDamageExact(order: seq<Handle>, actors: map<Handle, Actor>, zones: seq<Aabb>, h: Handle)
    requires forall i :: 0 <= i < |order| ==> order[i] in actors
    requires Distinct(order)
    ensures forall m :: m in ZoneDamage(order, actors, zones) ==>
              m.DamageActor? && m.who == NONE && m.amount == LETHAL_DAMAGE && m.actor in order
              && exists z :: z in zones && Contains(z, actors[m.actor].position)
    ensures h in order ==> Count(ZoneDamage(order, actors, zones), DamageActor(h, NONE, LETHAL_DAMAGE))
                           == ZonesContaining(actors[h].position, zones)
  {
    if order != [] {
      var rest := order[1..];
      assert Distinct(rest);
      ZoneDamageExact(rest, actors, zones, h);
      var head := ZoneHits(order[0], actors[order[0]].position, zones);
      ZoneHitsExact(order[0], actors[order[0]].position, zones);
      CountAppend(head, ZoneDamage(rest, actors, zones), DamageActor(h, NONE, LETHAL_DAMAGE));
      forall m | m in head
        ensures exists z :: z in zones && Contains(z, actors[m.actor].position)
      {
        assert head != [];
      }
      if order[0] == h {
        assert h !in rest by {
          forall i | 0 <= i < |rest| ensures rest[i] != h { assert rest[i] == order[i + 1]; }
        }
        CountAbsent(ZoneDamage(rest, actors, zones), DamageActor(h, NONE, LETHAL_DAMAGE));
        CountAllSame(head, DamageActor(h, NONE, LETHAL_DAMAGE));
      } else {
        CountAbsent(head, DamageActor(h, NONE, LETHAL_DAMAGE));
      }
    }
  }

  lemma {:induction false} CountAbsent<T>(s: seq<T>, x: T)
    requires x !in s
    ensures Count(s, x) == 0
  {
    if s != [] {
      assert x !in s[1..];
      CountAbsent(s[1..], x);
    }
  }

  lemma {:induction false} CountAllSame<T>(s: seq<T>, x: T)
    requires forall y :: y in s ==> y == x
    ensures Count(s, x) == |s|
  {
    if s != [] {
      assert s[0] in s;
      assert forall y :: y in s[1..] ==> y in s;
      CountAllSame(s[1..], x);
    }
  }

  /** What a damaging hit does to a bot's target: with a known attacker, the
      bot turns on the attacker at the attacker's position. */
  function Retarget(role: Role, who: Handle, whoPosition: Option<Vec3>): (r: Role)
    ensures r.PlayerRole? <==> role.PlayerRole?
    ensures role.BotRole? && whoPosition.Some? ==> r == BotRole(role.kind, Some(Target(whoPosition.value, who)))
    ensures role.BotRole? && whoPosition.None? ==> r == role
  {
    if role.BotRole? && whoPosition.Some? then role.(target := Some(Target(whoPosition.value, who))) else role
  }

  /** What the removal of an actor does to a bot's target: a target naming
      the removed actor is dropped, any other target is kept. */
  function Forget(role: Role, gone: Handle): (r: Role)
    ensures r.PlayerRole? <==> role.PlayerRole?
    ensures r.BotRole? ==> r.kind == role.kind
    ensures r.BotRole? && r.target.Some? ==> r.target.value.handle != gone
    ensures r.BotRole? && !(role.target.Some? && role.target.value.handle == gone) ==> r == role
  {
    if role.BotRole? && role.target.Some? && role.target.value.handle == gone
    then role.(target := Option.None) else role
  }

  /** The actors left after gone is freed, each told of the removal. */
  function Survivors(actors: map<Handle, Actor>, gone: Handle): (r: map<Handle, Actor>)
    ensures r.Keys == actors.Keys - {gone}
    ensures forall h :: h in r ==> r[h] == actors[h].(role := Forget(actors[h].role, gone))
  {
    map h | h in actors && h != gone :: actors[h].(role := Forget(actors[h].role, gone))
  }

  /** After a removal no bot still aims at the removed actor, and every
      other target, and every other field, is untouched. */
  lemma RemovalForgetsTarget(actors: map<Handle, Actor>, gone: Handle, h: Handle)
    requires h in Survivors(actors, gone)
    ensures var a := Survivors(actors, gone)[h];
            a.role.BotRole? && a.role.target.Some? ==> a.role.target.value.handle != gone
    ensures var a := Survivors(actors, gone)[h];
            a.health == actors[h].health && a.position == actors[h].position && a.weapons == actors[h].weapons
  {
  }

  /** The retargeting as the damage handler writes it: the damaged actor's
      own handle is passed where the attacker's belongs. */
  function RetargetAsWritten(role: Role, actor: Handle, who: Handle, whoPosition: Option<Vec3>): Role {
    if role.BotRole? && whoPosition.Some? then role.(target := Some(Target(whoPosition.value, actor))) else role
  }

  /** Any bot hurt by another actor ends up targeting itself. */
  lemma DamagedBotTargetsItself(kind: BotAI.BotKind, target: Option<Target>, actor: Handle, who: Handle, at: Vec3)
    requires who != actor
    ensures RetargetAsWritten(BotRole(kind, target), actor, who, Some(at)).target == Some(Target(at, actor))
    ensures RetargetAsWritten(BotRole(kind, target), actor, who, Some(at)) != Retarget(BotRole(kind, target), who, Some(at))
  {
  }

  // ---------------------------------------------------------------------
  // The level
  // ---------------------------------------------------------------------

  /** The actor h holds each of its weapons once, and each is live and
      owned by h. */
  ghost predicate OwnsWeapons(a: Actor, h: Handle, weapons: map<Handle, Weapon>) {
    Distinct(a.weapons)
    && forall i :: 0 <= i < |a.weapons| ==> a.weapons[i] in weapons && weapons[a.weapons[i]].owner == h
  }

  /** Freeing an actor and the weapons it holds keeps every other actor's
      weapons live and owned, since those weapons belong to other owners. */
  lemma SurvivorsKeepWeapons(actors: map<Handle, Actor>, weapons: map<Handle, Weapon>, gone: Handle)
    requires gone in actors
    requires forall h :: h in actors ==> OwnsWeapons(actors[h], h, weapons)
    ensures forall h :: h in Survivors(actors, gone) ==>
              OwnsWeapons(Survivors(actors, gone)[h], h, weapons - Elements(actors[gone].weapons))
  {
    var held := actors[gone].weapons;
    assert OwnsWeapons(actors[gone], gone, weapons);
    forall h | h in Survivors(actors, gone)
      ensures OwnsWeapons(Survivors(actors, gone)[h], h, weapons - Elements(held))
    {
      var a := actors[h];
      assert OwnsWeapons(a, h, weapons);
      forall i | 0 <= i < |a.weapons|
        ensures a.weapons[i] !in Elements(held)
      {
        assert weapons[a.weapons[i]].owner == h;
      }
    }
  }

  class Level {
    var actors: map<Handle, Actor>
    /** Live actor handles in pool order. */
    var actorOrder: seq<Handle>
    var weapons: map<Handle, Weapon>
    var projectiles: seq<Projectile>
    var items: seq<Item>
    var spawnPoints: seq<SpawnPoint>
    var deathZones: seq<Aabb>
    var player: Handle
    /** Pool slots handed out so far. */
    var nextActor: nat
    var nextWeapon: nat

    ghost predicate HandlesLive()
      reads this
    {
      (forall h :: h in actors ==> h.generation >= 1 && h.index < nextActor)
      && (forall w :: w in weapons ==> w.generation >= 1 && w.index < nextWeapon)
      && (player == NONE || player in actors)
    }

    ghost predicate OrderMatches()
      reads this
    {
      (forall h :: h in actors <==> h in actorOrder) && Distinct(actorOrder)
    }

    /** Every weapon an actor holds is live, owned by that actor, and held
        once. */
    ghost predicate WeaponsOwned()
      reads this
    {
      forall h :: h in actors ==> OwnsWeapons(actors[h], h, weapons)
    }

    ghost predicate Valid()
      reads this
    {
      HandlesLive() && OrderMatches() && WeaponsOwned()
    }

    /** An empty level with no player. */
    constructor ()
      ensures Valid()
      ensures actors == map[] && weapons == map[] && actorOrder == []
      ensures projectiles == [] && items == [] && spawnPoints == [] && deathZones == []
      ensures player == NONE
    {
      actors, actorOrder, weapons := map[], [], map[];
      projectiles, items, spawnPoints, deathZones := [], [], [], [];
      player := NONE;
      nextActor, nextWeapon := 1, 1;
    }

    /** Adds a bot of the given kind with its definition's full health. */
    method AddBot(kind: BotAI.BotKind, position: Vec3) returns (h: Handle)
      requires Valid()
      modifies this`actors, this`actorOrder, this`nextActor
      ensures Valid()
      ensures h !in old(actors) && h != NONE
      ensures actors == old(actors)[h := Actor(BotRole(kind, Option.None), BotAI.Definition(kind).health, position, [])]
      ensures actorOrder == old(actorOrder) + [h]
    {
      h := Handle(nextActor, 1);
      assert h !in actors;
      DistinctAppend(actorOrder, h);
      actors := actors[h := Actor(BotRole(kind, Option.None), BotAI.Definition(kind).health, position, [])];
      actorOrder := actorOrder + [h];
      nextActor := nextActor + 1;
    }

    /** Spawns the bot of the spawn point with the given id, if there is
        one, and marks the point as spawned. */
    method SpawnBot(id: nat) returns (h: Option<Handle>)
      requires Valid()
      modifies this`actors, this`actorOrder, this`nextActor, this`spawnPoints
      ensures Valid()
      ensures id >= |old(spawnPoints)| ==>
                h.None? && actors == old(actors) && actorOrder == old(actorOrder) && spawnPoints == old(spawnPoints)
      ensures id < |old(spawnPoints)| ==>
                h.Some? && h.value !in old(actors)
                && actorOrder == old(actorOrder) + [h.value]
                && spawnPoints == old(spawnPoints)[id := old(spawnPoints)[id].(spawned := true)]
                && actors == old(actors)[h.value := Actor(BotRole(old(spawnPoints)[id].botKind, Option.None),
                                                          BotAI.Definition(old(spawnPoints)[id].botKind).health,
                                                          old(spawnPoints)[id].position, [])]
    {
      if id < |spawnPoints| {
        spawnPoints := spawnPoints[id := spawnPoints[id].(spawned := true)];
        var bot := AddBot(spawnPoints[id].botKind, spawnPoints[id].position);
        h := Some(bot);
      } else {
        h := Option.None;
      }
    }

    /** Gives the actor a new weapon of the given kind, when the actor is
        live.  New weapons start with the ammo the weapon kind ships with. */
    method GiveNewWeapon(actor: Handle, kind: WeaponKind, initialAmmo: nat)
      requires Valid()
      modifies this`weapons, this`actors, this`nextWeapon
      ensures Valid()
      ensures actor !in old(actors) ==> weapons == old(weapons) && actors == old(actors)
      ensures actor in old(actors) ==>
                var w := Handle(old(nextWeapon), 1);
                w !in old(weapons)
                && weapons == old(weapons)[w := Weapon(kind, initialAmmo, actor)]
                && actors == old(actors)[actor := old(actors)[actor].(weapons := old(actors)[actor].weapons + [w])]
    {
      if actor in actors {
        var w := Handle(nextWeapon, 1);
        weapons := weapons[w := Weapon(kind, initialAmmo, actor)];
        actors := actors[actor := actors[actor].(weapons := actors[actor].weapons + [w])];
        nextWeapon := nextWeapon + 1;
      }
    }

    /** Adds an ammo pack to the first of the actor's weapons of the given
        kind, if the actor has one. */
    method AddAmmoToFirst(actor: Handle, kind: WeaponKind) returns (found: bool)
      requires Valid() && actor in actors
      modifies this`weapons
      ensures Valid()
      ensures var i := FirstOfKind(actors[actor].weapons, old(weapons), kind);
              found == i.Some?
              && weapons == (if i.Some? then WithAmmo(old(weapons), actors[actor].weapons[i.value]) else old(weapons))
    {
      var held := actors[actor].weapons;
      found := false;
      var k := 0;
      while k < |held|
        invariant 0 <= k <= |held|
        invariant weapons == old(weapons) && !found
        invariant forall j :: 0 <= j < k ==> weapons[held[j]].kind != kind
      {
        if weapons[held[k]].kind == kind {
          found := true;
          weapons := WithAmmo(weapons, held[k]);
          FirstOfKindAt(held, old(weapons), kind, k);
          break;
        }
        k := k + 1;
      }
    }

    /** Gives an item to a live actor: a medkit heals, a weapon item refills
        the first weapon of its kind or grants a new one, an ammo item
        refills the first weapon of its kind.  A rocket launcher reaches a
        branch the game treats as unreachable. */
    method GiveItem(actor: Handle, kind: ItemKind, initialAmmo: nat) returns (r: Result<()>)
      requires Valid()
      modifies this`actors, this`weapons, this`nextWeapon
      ensures Valid()
      ensures r.Err? <==> actor in old(actors) && kind.RocketLauncher?
      ensures actor !in old(actors) || r.Err? ==> actors == old(actors) && weapons == old(weapons)
      ensures actor in old(actors) && kind.Medkit? ==>
                weapons == old(weapons)
                && actors == old(actors)[actor := old(actors)[actor].(health := old(actors)[actor].health + MEDKIT_HEAL)]
      ensures actor in old(actors) && AmmoTarget(kind).Some? ==>
                actors == old(actors)
                && var i := FirstOfKind(old(actors)[actor].weapons, old(weapons), AmmoTarget(kind).value);
                   weapons == (if i.Some? then WithAmmo(old(weapons), old(actors)[actor].weapons[i.value]) else old(weapons))
      ensures actor in old(actors) && WeaponForItem(kind).Ok? ==>
                var held := old(actors)[actor].weapons;
                var i := FirstOfKind(held, old(weapons), WeaponForItem(kind).value);
                if i.Some? then
                  actors == old(actors) && weapons == WithAmmo(old(weapons), held[i.value])
                else
                  var w := Handle(old(nextWeapon), 1);
                  w !in old(weapons)
                  && weapons == old(weapons)[w := Weapon(WeaponForItem(kind).value, initialAmmo, actor)]
                  && actors == old(actors)[actor := old(actors)[actor].(weapons := held + [w])]
    {
      r := Ok(());
      if actor in actors {
        if kind.Medkit? {
          actors := actors[actor := actors[actor].(health := actors[actor].health + MEDKIT_HEAL)];
        } else if IsWeaponItem(kind) {
          var weaponKind := WeaponForItem(kind);
          if weaponKind.Err? {
            r := Err(weaponKind.message);
            return;
          }
          var found := AddAmmoToFirst(actor, weaponKind.value);
          if !found {
            GiveNewWeapon(actor, weaponKind.value, initialAmmo);
          }
        } else {
          var found := AddAmmoToFirst(actor, AmmoTarget(kind).value);
        }
      }
    }

    /** Frees a weapon, resetting the owner of every projectile it fired. */
    method RemoveWeapon(w: Handle)
      requires w in weapons && w != NONE
      modifies this`weapons, this`projectiles
      ensures weapons == old(weapons) - {w}
      ensures projectiles == ClearedOwners(old(projectiles), [w])
    {
      var k := 0;
      while k < |projectiles|
        invariant 0 <= k <= |projectiles| == |old(projectiles)|
        invariant forall i :: 0 <= i < k ==> projectiles[i] == ClearedOwners(old(projectiles), [w])[i]
        invariant forall i :: k <= i < |projectiles| ==> projectiles[i] == old(projectiles)[i]
        invariant weapons == old(weapons)
      {
        if projectiles[k].owner == w {
          projectiles := projectiles[k := projectiles[k].(owner := NONE)];
        }
        k := k + 1;
      }
      weapons := weapons - {w};
    }

    /** Drops an item for each weapon the actor holds and frees the
        weapons. */
    method DropWeapons(actor: Handle, ground: Vec3)
      requires Valid() && actor in actors
      modifies this`weapons, this`projectiles, this`items
      ensures var held := actors[actor].weapons;
              (forall i :: 0 <= i < |held| ==> held[i] in old(weapons))
              && weapons == old(weapons) - Elements(held)
              && projectiles == ClearedOwners(old(projectiles), held)
              && items == old(items) + Drops(held, old(weapons), ground)
    {
      var held := actors[actor].weapons;
      var k := 0;
      while k < |held|
        invariant 0 <= k <= |held|
        invariant weapons == old(weapons) - Elements(held[..k])
        invariant projectiles == ClearedOwners(old(projectiles), held[..k])
        invariant items == old(items) + Drops(held[..k], old(weapons), ground)
      {
        var w := held[k];
        assert w !in held[..k];
        items := items + [Item(ItemForWeapon(weapons[w].kind), ground)];
        RemoveWeapon(w);
        assert held[..k + 1] == held[..k] + [w];
        assert Elements(held[..k + 1]) == Elements(held[..k]) + {w};
        k := k + 1;
      }
      assert held[..k] == held;
    }

    /** Removes a live actor: its weapons are dropped as items and freed,
        every bot aiming at it loses its target, and the player handle is
        reset when it is the player. */
    method RemoveActor(actor: Handle, ground: Vec3)
      requires Valid()
      modifies this`actors, this`actorOrder, this`weapons, this`projectiles, this`items, this`player
      ensures Valid()
      ensures actor !in old(actors) ==>
                actors == old(actors) && actorOrder == old(actorOrder) && weapons == old(weapons)
                && projectiles == old(projectiles) && items == old(items) && player == old(player)
      ensures actor in old(actors) ==>
                var held := old(actors)[actor].weapons;
                actors == Survivors(old(actors), actor)
                && actorOrder == Without(old(actorOrder), actor)
                && weapons == old(weapons) - Elements(held)
                && projectiles == ClearedOwners(old(projectiles), held)
                && items == old(items) + Drops(held, old(weapons), ground)
      ensures player == (if old(player) == actor then NONE else old(player))
    {
      if actor in actors {
        SurvivorsKeepWeapons(actors, weapons, actor);
        DropWeapons(actor, ground);
        actors := Survivors(actors, actor);
        WithoutDistinct(actorOrder, actor);
        actorOrder := Without(actorOrder, actor);
        if player == actor {
          player := NONE;
        }
      }
    }

    /** Damages a live actor when the attacker is absent or live; a bot
        hurt by a live attacker turns on it. */
    method DamageActor(actor: Handle, who: Handle, amount: real)
      requires Valid()
      modifies this`actors
      ensures Valid()
      ensures !(actor in old(actors) && (who == NONE || who in old(actors))) ==> actors == old(actors)
      ensures actor in old(actors) && (who == NONE || who in old(actors)) ==>
                var whoPosition := if who == NONE then Option.None else Some(old(actors)[who].position);
                actors == old(actors)[actor := old(actors)[actor].(role := Retarget(old(actors)[actor].role, who, whoPosition),
                                                                 health := old(actors)[actor].health - amount)]
    {
      if actor in actors && (who == NONE || who in actors) {
        var whoPosition := if who != NONE then Some(actors[who].position) else Option.None;
        var hurt := actors[actor];
        hurt := hurt.(role := Retarget(hurt.role, who, whoPosition));
        hurt := hurt.(health := hurt.health - amount);
        actors := actors[actor := hurt];
      }
    }

    /** The lethal hits the death zones deal this tick, one per actor and
        zone containing it, actors in pool order. */
    method UpdateDeathZones() returns (sent: seq<Message>)
      requires Valid()
      ensures sent == ZoneDamage(actorOrder, actors, deathZones)
    {
      sent := [];
      var k := 0;
      while k < |actorOrder|
        invariant 0 <= k <= |actorOrder|
        invariant sent + ZoneDamage(actorOrder[k..], actors, deathZones) == ZoneDamage(actorOrder, actors, deathZones)
      {
        var h := actorOrder[k];
        var hits := HitsFor(h, actors[h].position, deathZones);
        sent := sent + hits;
        assert actorOrder[k..][1..] == actorOrder[k + 1..];
        k := k + 1;
      }
    }
  }

  /** Tests one actor's position against every death zone in order. */
  method HitsFor(h: Handle, position: Vec3, zones: seq<Aabb>) returns (hits: seq<Message>)
    ensures hits == ZoneHits(h, position, zones)
  {
    hits := [];
    var z := 0;
    while z < |zones|
      invariant 0 <= z <= |zones|
      invariant hits + ZoneHits(h, position, zones[z..]) == ZoneHits(h, position, zones)
    {
      if Contains(zones[z], position) {
        hits := hits + [DamageActor(h, NONE, LETHAL_DAMAGE)];
      }
      assert zones[z..][1..] == zones[z + 1..];
      z := z + 1;
    }
  }

  lemma {:induction false} FirstOfKindAt(hs: seq<Handle>, weapons: map<Handle, Weapon>, kind: WeaponKind, k: nat)
    requires forall i :: 0 <= i < |hs| ==> hs[i] in weapons
    requires k < |hs| && weapons[hs[k]].kind == kind
    requires forall j :: 0 <= j < k ==> weapons[hs[j]].kind != kind
    ensures FirstOfKind(hs, weapons, kind) == Some(k)
  {
    if k > 0 {
      FirstOfKindAt(hs[1..], weapons, kind, k - 1);
    }
  }
}
