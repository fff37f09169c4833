/**
  The private wake key of a worker. Dispatchers of any number of workers park on the shared
  marker and on the key of their own worker; Stop cancels runCtx, pushes one member per
  dispatcher and deletes the key once all dispatchers have returned.
 */
module WakeKey {
  import opened Queues
  import opened Names

  /** Woken: BZPOPMIN has returned, runCtx not yet looked at. byKey: it popped the private key. */
  datatype Slot = Busy | Parked | Woken(byKey: bool) | Gone(byKey: bool)

  datatype Stage = Serving | RunCancelled | Pushed | Dropped

  /** One worker: how far its shutdown is, the members of its wake key, its dispatchers. */
  datatype Crew = Crew(stage: Stage, key: set<string>, slots: seq<Slot>)

  datatype World = World(marker: set<string>, crews: map<nat, Crew>)

  datatype Action =
    | PushMarker(member: string)
    | Hire(w: nat, concurrency: nat)
    | Park(w: nat, i: nat)
    | PopMarker(w: nat, i: nat, member: string)
    | PopKey(w: nat, i: nat, member: string)
    | TimeOut(w: nat, i: nat)
    | Look(w: nat, i: nat) // awaitMarker compares runCtx
    | Leave(w: nat, i: nat) // a dispatcher not parked sees runCtx cancelled
    | CancelRun(w: nat)
    | Push(w: nat) // wakeDispatchers
    | Drop(w: nat) // dropWakeKey, after run.Wait

  function StopMember(i: nat): string {
    "stop:" + Digits(i)
  }

  function StopMembers(n: nat): set<string> {
    set i: nat | i < n :: StopMember(i)
  }

  predicate HasSlot(s: World, w: nat, i: nat, slot: Slot) {
    w in s.crews && i < |s.crews[w].slots| && s.crews[w].slots[i] == slot
  }

  predicate AllGone(slots: seq<Slot>) {
    forall i :: 0 <= i < |slots| ==> slots[i].Gone?
  }

  /** BZPOPMIN serves the marker before the private key. */
  predicate Enabled(s: World, a: Action) {
    match a
    case PushMarker(_) => true
    case Hire(w, concurrency) => w !in s.crews && concurrency >= 1
    case Park(w, i) => HasSlot(s, w, i, Busy)
    case PopMarker(w, i, member) => HasSlot(s, w, i, Parked) && member in s.marker
    case PopKey(w, i, member) => HasSlot(s, w, i, Parked) && s.marker == {} && member in s.crews[w].key
    case TimeOut(w, i) => HasSlot(s, w, i, Parked)
    case Look(w, i) => w in s.crews && i < |s.crews[w].slots| && s.crews[w].slots[i].Woken?
    case Leave(w, i) => HasSlot(s, w, i, Busy) && !s.crews[w].stage.Serving?
    case CancelRun(w) => w in s.crews && s.crews[w].stage.Serving?
    case Push(w) => w in s.crews && s.crews[w].stage.RunCancelled?
    case Drop(w) => w in s.crews && s.crews[w].stage.Pushed? && AllGone(s.crews[w].slots)
  }

  function SetSlot(s: World, w: nat, i: nat, slot: Slot): World
    requires w in s.crews && i < |s.crews[w].slots|
  {
    s.(crews := s.crews[w := s.crews[w].(slots := s.crews[w].slots[i := slot])])
  }

  function Next(s: World, a: Action): World
    requires Enabled(s, a)
  {
    match a
    case PushMarker(member) => s.(marker := s.marker + {member})
    case Hire(w, concurrency) => s.(crews := s.crews[w := Crew(Serving, {}, seq(concurrency, _ => Busy))])
    case Park(w, i) => SetSlot(s, w, i, Parked)
    case PopMarker(w, i, member) => SetSlot(s, w, i, Woken(false)).(marker := s.marker - {member})
    case PopKey(w, i, member) =>
      var crew := s.crews[w];
      s.(crews := s.crews[w := crew.(key := crew.key - {member}, slots := crew.slots[i := Woken(true)])])
    case TimeOut(w, i) => SetSlot(s, w, i, Woken(false))
    case Look(w, i) =>
      var crew := s.crews[w];
      SetSlot(s, w, i, if crew.stage.Serving? then Busy else Gone(crew.slots[i].byKey))
    case Leave(w, i) => SetSlot(s, w, i, Gone(false))
    case CancelRun(w) => s.(crews := s.crews[w := s.crews[w].(stage := RunCancelled)])
    case Push(w) =>
      var crew := s.crews[w];
      s.(crews := s.crews[w := crew.(stage := Pushed, key := crew.key + StopMembers(|crew.slots|))])
    case Drop(w) => s.(crews := s.crews[w := s.crews[w].(stage := Dropped, key := {})])
  }

  // ---------- counting ----------

  predicate UsedKey(slot: Slot) {
    (slot.Woken? || slot.Gone?) && slot.byKey
  }

  function CountParked(slots: seq<Slot>): nat {
    if slots == [] then 0 else CountParked(slots[1..]) + if slots[0].Parked? then 1 else 0
  }

  function CountUsed(slots: seq<Slot>): nat {
    if slots == [] then 0 else CountUsed(slots[1..]) + if UsedKey(slots[0]) then 1 else 0
  }

  lemma {:induction false} CountsDisjoint(slots: seq<Slot>)
    ensures CountParked(slots) + CountUsed(slots) <= |slots|
  {
    if slots != [] {
      CountsDisjoint(slots[1..]);
    }
  }

  lemma {:induction false} CountsUpdate(slots: seq<Slot>, i: nat, slot: Slot)
    requires i < |slots|
    ensures CountUsed(slots[i := slot])
         == CountUsed(slots) - (if UsedKey(slots[i]) then 1 else 0) + if UsedKey(slot) then 1 else 0
    ensures CountParked(slots[i := slot])
         == CountParked(slots) - (if slots[i].Parked? then 1 else 0) + if slot.Parked? then 1 else 0
  {
    if i > 0 {
      CountsUpdate(slots[1..], i - 1, slot);
      assert slots[i := slot][1..] == slots[1..][i - 1 := slot];
    } else {
      assert slots[i := slot][1..] == slots[1..];
    }
  }

  lemma {:induction false} NoneUsed(slots: seq<Slot>)
    requires forall i :: 0 <= i < |slots| ==> !UsedKey(slots[i])
    ensures CountUsed(slots) == 0
  {
    if slots != [] {
      NoneUsed(slots[1..]);
    }
  }

  lemma {:induction false} SomeParked(slots: seq<Slot>) returns (i: nat)
    requires CountParked(slots) > 0
    ensures i < |slots| && slots[i].Parked?
  {
    if slots[0].Parked? {
      i := 0;
    } else {
      var j := SomeParked(slots[1..]);
      i := j + 1;
    }
  }

  /** The pushed members are distinct, so a sorted set keeps all of them. */
  lemma {:induction false} StopMembersDistinct(n: nat)
    ensures |StopMembers(n)| == n
  {
    if n > 0 {
      StopMembersDistinct(n - 1);
      var last := StopMember(n - 1);
      if last in StopMembers(n - 1) {
        var i: nat :| i < n - 1 && StopMember(i) == last;
        assert StopMember(i)[5..] == Digits(i) && last[5..] == Digits(n - 1);
        DigitsInjective(i, n - 1);
      }
      assert StopMembers(n) == StopMembers(n - 1) + {last};
    }
  }

  // ---------- the invariant ----------

  /** Each member ever pushed is either still there or has made one dispatcher return. */
  ghost predicate Good(crew: Crew) {
    match crew.stage
    case Serving =>
      crew.key == {} && forall i :: 0 <= i < |crew.slots| ==> !UsedKey(crew.slots[i]) && !crew.slots[i].Gone?
    case RunCancelled => crew.key == {} && forall i :: 0 <= i < |crew.slots| ==> !UsedKey(crew.slots[i])
    case Pushed => |crew.key| + CountUsed(crew.slots) == |crew.slots|
    case Dropped => crew.key == {} && AllGone(crew.slots)
  }

  ghost predicate AllGood(s: World) {
    forall w :: w in s.crews ==> Good(s.crews[w])
  }

  lemma SlotGood(crew: Crew, i: nat, slot: Slot)
    requires Good(crew) && i < |crew.slots| && !crew.slots[i].Gone?
    requires UsedKey(slot) == UsedKey(crew.slots[i]) && (crew.stage.Serving? ==> !slot.Gone?)
    ensures Good(crew.(slots := crew.slots[i := slot]))
  {
    CountsUpdate(crew.slots, i, slot);
  }

  lemma PopGood(crew: Crew, i: nat, member: string)
    requires Good(crew) && i < |crew.slots| && crew.slots[i].Parked? && member in crew.key
    ensures Good(crew.(key := crew.key - {member}, slots := crew.slots[i := Woken(true)]))
  {
    CountsUpdate(crew.slots, i, Woken(true));
  }

  lemma PushGood(crew: Crew)
    requires Good(crew) && crew.stage.RunCancelled?
    ensures Good(crew.(stage := Pushed, key := crew.key + StopMembers(|crew.slots|)))
  {
    NoneUsed(crew.slots);
    StopMembersDistinct(|crew.slots|);
    assert crew.key + StopMembers(|crew.slots|) == StopMembers(|crew.slots|);
  }

  /** A step changes the worker it belongs to and no other; nobody else can pop the key. */
  lemma CrewNext(s: World, a: Action, w: nat)
    requires AllGood(s) && Enabled(s, a) && w in Next(s, a).crews
    ensures Good(Next(s, a).crews[w])
  {
    if w in s.crews && Next(s, a).crews[w] != s.crews[w] {
      var crew := s.crews[w];
      assert Good(crew);
      match a
      case Park(_, i) => SlotGood(crew, i, Parked);
      case PopMarker(_, i, _) => SlotGood(crew, i, Woken(false));
      case PopKey(_, i, member) => PopGood(crew, i, member);
      case TimeOut(_, i) => SlotGood(crew, i, Woken(false));
      case Look(_, i) => SlotGood(crew, i, Next(s, a).crews[w].slots[i]);
      case Leave(_, i) => SlotGood(crew, i, Gone(false));
      case Push(_) => PushGood(crew);
      case _ =>
    }
  }

  ghost predicate IsRun(run: seq<World>, actions: seq<Action>) {
    && |run| == |actions| + 1 && run[0] == World({}, map[])
    && forall i :: 0 <= i < |actions| ==> Enabled(run[i], actions[i]) && run[i + 1] == Next(run[i], actions[i])
  }

  lemma {:induction false} RunGood(run: seq<World>, actions: seq<Action>, n: nat)
    requires IsRun(run, actions) && n < |run|
    ensures AllGood(run[n])
  {
    if n > 0 {
      RunGood(run, actions, n - 1);
      forall w | w in run[n].crews
        ensures Good(run[n].crews[w])
      {
        CrewNext(run[n - 1], actions[n - 1], w);
      }
    }
  }

  /** In every interleaving the pushed members suffice for the dispatchers still parked. */
  lemma EnoughMembers(run: seq<World>, actions: seq<Action>, n: nat, w: nat)
    requires IsRun(run, actions) && n < |run| && w in run[n].crews && run[n].crews[w].stage.Pushed?
    ensures |run[n].crews[w].key| >= CountParked(run[n].crews[w].slots)
  {
    RunGood(run, actions, n);
    CountsDisjoint(run[n].crews[w].slots);
  }

  /** The key is deleted only after every dispatcher has returned, and nobody parks on it again. */
  lemma DroppedAfterAll(run: seq<World>, actions: seq<Action>, n: nat, w: nat)
    requires IsRun(run, actions) && n < |run| && w in run[n].crews && run[n].crews[w].stage.Dropped?
    ensures AllGone(run[n].crews[w].slots)
  {
    RunGood(run, actions, n);
  }

  // ---------- every parked dispatcher can return ----------

  predicate AllEnabled(s: World, actions: seq<Action>)
    decreases |actions|
  {
    actions == [] || (Enabled(s, actions[0]) && AllEnabled(Next(s, actions[0]), actions[1..]))
  }

  function After(s: World, actions: seq<Action>): World
    requires AllEnabled(s, actions)
    decreases |actions|
  {
    if actions == [] then s else After(Next(s, actions[0]), actions[1..])
  }

  /** Pops alone, without a timeout, bring back every parked dispatcher, and none of them serves on. */
  lemma {:induction false} ParkedCanReturn(s: World, w: nat) returns (actions: seq<Action>)
    requires AllGood(s) && w in s.crews && s.crews[w].stage.Pushed?
    ensures AllEnabled(s, actions) && forall a :: a in actions ==> a.PopMarker? || a.PopKey?
    ensures |actions| == CountParked(s.crews[w].slots)
    ensures w in After(s, actions).crews && CountParked(After(s, actions).crews[w].slots) == 0
    ensures After(s, actions).crews[w].stage.Pushed?
    decreases CountParked(s.crews[w].slots)
  {
    var crew := s.crews[w];
    CountsDisjoint(crew.slots);
    if CountParked(crew.slots) == 0 {
      actions := [];
    } else {
      var i := SomeParked(crew.slots);
      var a: Action;
      if s.marker == {} {
        assert crew.key != {};
        var member :| member in crew.key;
        a := PopKey(w, i, member);
        CountsUpdate(crew.slots, i, Woken(true));
      } else {
        var member :| member in s.marker;
        a := PopMarker(w, i, member);
        CountsUpdate(crew.slots, i, Woken(false));
      }
      var s1 := Next(s, a);
      forall w' | w' in s1.crews
        ensures Good(s1.crews[w'])
      {
        CrewNext(s, a, w');
      }
      var rest := ParkedCanReturn(s1, w);
      actions := [a] + rest;
      assert actions[1..] == rest;
    }
  }
}
