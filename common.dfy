/** Shared vocabulary of the gameplay layer: vectors, pool handles, targets,
    the failure-compatible wrappers and the messages put on the outbound bus. */
module Common {

  datatype Option<T> = None | Some(value: T)

  datatype Result<T> = Ok(value: T) | Err(message: string)

  /** A world-space vector; single-precision floats are modelled as reals. */
  datatype Vec3 = Vec3(x: real, y: real, z: real)

  function Sub(a: Vec3, b: Vec3): Vec3 {
    Vec3(a.x - b.x, a.y - b.y, a.z - b.z)
  }

  function Dot(a: Vec3, b: Vec3): real {
    a.x * b.x + a.y * b.y + a.z * b.z
  }

  function SqrNorm(a: Vec3): real {
    Dot(a, a)
  }

  function SqrDistance(a: Vec3, b: Vec3): real {
    SqrNorm(Sub(a, b))
  }

  /** A pool handle: slot index plus generation.  Live objects always carry a
      generation of at least one, so NONE never names a live object. */
  datatype Handle = Handle(index: nat, generation: nat)

  const NONE: Handle := Handle(0, 0)

  /** What a bot aims at: the cached position and the handle of the actor. */
  datatype Target = Target(position: Vec3, handle: Handle)

  datatype ProjectileKind = Grenade | Other

  /** Messages placed on the outbound event bus.  Sound file paths are not
      part of the model, so PlaySound keeps only its spatial parameters. */
  datatype Message =
    | DamageActor(actor: Handle, who: Handle, amount: real)
    | ShootWeapon(weapon: Handle, aim: Option<Vec3>)
    | PlaySound(position: Vec3, gain: real, rolloffFactor: real, radius: real)
    | CreateProjectile(kind: ProjectileKind, position: Vec3, direction: Vec3,
                       initialVelocity: Vec3, owner: Handle)

  /** Number of occurrences of x in s. */
  function Count<T(==)>(s: seq<T>, x: T): nat {
    if s == [] then 0 else (if s[0] == x then 1 else 0) + Count(s[1..], x)
  }

  lemma {:induction false} CountAppend<T>(a: seq<T>, b: seq<T>, x: T)
    ensures Count(a + b, x) == Count(a, x) + Count(b, x)
  {
    if a == [] {
      assert a + b == b;
    } else {
      assert (a + b)[1..] == a[1..] + b;
      CountAppend(a[1..], b, x);
    }
  }

  /** The id an animation clip attaches to a signal at one of its timestamps. */
  type SignalId = nat

  /** The messages a drain of a clip's signal queue sends: one copy of msg for
      every occurrence of signal in the queue, provided the condition the
      drain tests (fixed for the whole drain) holds. */
  function Emissions(queue: seq<SignalId>, signal: SignalId, enabled: bool, msg: Message): seq<Message> {
    if queue == [] then []
    else (if queue[0] == signal && enabled then [msg] else []) + Emissions(queue[1..], signal, enabled, msg)
  }

  /** A drain sends exactly as many messages as the queue holds matching
      signals, all of them msg, and none when its condition fails. */
  lemma {:induction false} EmissionsCount(queue: seq<SignalId>, signal: SignalId, enabled: bool, msg: Message)
    ensures |Emissions(queue, signal, enabled, msg)| == (if enabled then Count(queue, signal) else 0)
    ensures forall m :: m in Emissions(queue, signal, enabled, msg) ==> m == msg
  {
    if queue != [] {
      EmissionsCount(queue[1..], signal, enabled, msg);
    }
  }

  /** Pops every event of the queue in order, sending msg for each one
      carrying signal while the condition holds. */
  method DrainSignals(queue: seq<SignalId>, signal: SignalId, enabled: bool, msg: Message) returns (sent: seq<Message>)
    ensures sent == Emissions(queue, signal, enabled, msg)
  {
    sent := [];
    var rest := queue;
    while rest != []
      invariant sent + Emissions(rest, signal, enabled, msg) == Emissions(queue, signal, enabled, msg)
      decreases |rest|
    {
      var event := rest[0];
      rest := rest[1..];
      if event == signal && enabled {
        sent := sent + [msg];
      }
    }
  }

  /** The elements of s in the opposite order (what `Vec::reverse` leaves). */
  function Reversed<T>(s: seq<T>): (r: seq<T>)
    ensures |r| == |s|
    ensures multiset(r) == multiset(s)
    ensures forall i :: 0 <= i < |s| ==> r[i] == s[|s| - 1 - i]
  {
    if s == [] then []
    else
      assert s == [s[0]] + s[1..];
      Reversed(s[1..]) + [s[0]]
  }

  lemma ReversedInvolution<T>(s: seq<T>)
    ensures Reversed(Reversed(s)) == s
  {
  }
}
