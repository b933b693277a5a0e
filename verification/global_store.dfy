/**
  The process-wide key/value store of the live agent server (`GlobalStore`
  in backend/ec2/live-gemini/src/live_gemini/utils/global_store.py). The
  class keeps its one instance and its one dict as class attributes, so every
  `GlobalStore()` call returns the same object and every `set`, `get` and
  `clear` works on the same map. Object identity is a number handed out by
  the allocator when the first instance is created.
 */
module GlobalStore {
  import opened Wrappers
  import opened Json

  /** The class attributes: the cached instance, if created yet, and the shared dict. */
  datatype ClassState = ClassState(instance: Option<nat>, store: map<string, Json>)

  /** Before any call: no instance and an empty dict. */
  const Initial := ClassState(None, map[])

  /**
    `GlobalStore()`: the cached instance, or a new one numbered `identity`
    when none exists yet. Returns the new class state and the instance.
   */
  function Construct(s: ClassState, identity: nat): (r: (ClassState, nat))
    ensures s.instance.Some? ==> r.1 == s.instance.value && r.0 == s
    ensures s.instance.None? ==> r.1 == identity
    ensures r.0.instance == Some(r.1) && r.0.store == s.store
  {
    match s.instance
    case Some(h) => (s, h)
    case None => (s.(instance := Some(identity)), identity)
  }

  /** `set(key, value)`. */
  function Set(s: ClassState, key: string, value: Json): (r: ClassState)
    ensures r.instance == s.instance
    ensures key in r.store && r.store[key] == value
    ensures r.store.Keys == s.store.Keys + {key}
    ensures forall k :: k in s.store && k != key ==> r.store[k] == s.store[k]
  {
    s.(store := s.store[key := value])
  }

  /** `get(key, default)`. */
  function GetOr(s: ClassState, key: string, default: Json): (r: Json)
    ensures key in s.store ==> r == s.store[key]
    ensures key !in s.store ==> r == default
  {
    if key in s.store then s.store[key] else default
  }

  /** `get(key)`: the default is None. */
  function Get(s: ClassState, key: string): (r: Json)
    ensures key !in s.store ==> r == JNull
    ensures key in s.store ==> r == s.store[key]
  {
    GetOr(s, key, JNull)
  }

  const HistoryKey := "conversation_history"

  /** `clear()`: empty the dict, then set the conversation history to an empty list. */
  function Clear(s: ClassState): (r: ClassState)
    ensures r.instance == s.instance
    ensures r.store == map[HistoryKey := JArr([])]
  {
    Set(s.(store := map[]), HistoryKey, JArr([]))
  }

  /** Reading a key right after setting it gives the value set. */
  lemma GetAfterSet(s: ClassState, key: string, value: Json, default: Json)
    ensures GetOr(Set(s, key, value), key, default) == value
  {
  }

  /** Setting one key changes no other key, present or absent. */
  lemma SetLeavesOthers(s: ClassState, key: string, value: Json, other: string, default: Json)
    requires other != key
    ensures GetOr(Set(s, key, value), other, default) == GetOr(s, other, default)
  {
  }

  /** Clearing twice is clearing once. */
  lemma ClearIdempotent(s: ClassState)
    ensures Clear(Clear(s)) == Clear(s)
  {
  }

  /** After `clear`, only the history is left, as an empty list; every other key reads as its default. */
  lemma ClearLeavesHistoryOnly(s: ClassState, key: string, default: Json)
    ensures GetOr(Clear(s), HistoryKey, default) == JArr([])
    ensures key != HistoryKey ==> GetOr(Clear(s), key, default) == default
  {
  }

  /** The calls a process can make on the class. */
  datatype Call = New(identity: nat) | SetKey(key: string, value: Json) | ClearAll

  /** The instances the `GlobalStore()` calls of a run return, in call order. */
  function Instances(s: ClassState, calls: seq<Call>): (r: seq<nat>)
    decreases |calls|
  {
    if calls == [] then []
    else match calls[0]
      case New(identity) =>
        var (s', h) := Construct(s, identity);
        [h] + Instances(s', calls[1..])
      case SetKey(k, v) => Instances(Set(s, k, v), calls[1..])
      case ClearAll => Instances(Clear(s), calls[1..])
  }

  /**
    Once an instance exists, every later `GlobalStore()` returns it: the
    class is a singleton for the life of the process.
   */
  lemma {:induction false} SingletonAfterFirst(s: ClassState, calls: seq<Call>)
    requires s.instance.Some?
    ensures forall i :: 0 <= i < |Instances(s, calls)| ==> Instances(s, calls)[i] == s.instance.value
    decreases |calls|
  {
    if calls != [] {
      match calls[0]
      case New(identity) =>
        SingletonAfterFirst(Construct(s, identity).0, calls[1..]);
      case SetKey(k, v) =>
        SingletonAfterFirst(Set(s, k, v), calls[1..]);
      case ClearAll =>
        SingletonAfterFirst(Clear(s), calls[1..]);
    }
  }

  /** From a fresh process, all `GlobalStore()` calls return the same object. */
  lemma {:induction false} SingleInstance(calls: seq<Call>, i: nat, j: nat)
    requires i < |Instances(Initial, calls)| && j < |Instances(Initial, calls)|
    ensures Instances(Initial, calls)[i] == Instances(Initial, calls)[j]
  {
    SameInstances(Initial, calls);
  }

  /** Any two instances returned along a run are the same object, whatever the starting state. */
  lemma {:induction false} SameInstances(s: ClassState, calls: seq<Call>)
    ensures forall i, j :: 0 <= i < |Instances(s, calls)| && 0 <= j < |Instances(s, calls)| ==>
              Instances(s, calls)[i] == Instances(s, calls)[j]
    decreases |calls|
  {
    if calls != [] {
      match calls[0]
      case New(identity) =>
        var (s', h) := Construct(s, identity);
        SingletonAfterFirst(s', calls[1..]);
        assert Instances(s, calls) == [h] + Instances(s', calls[1..]);
      case SetKey(k, v) =>
        SameInstances(Set(s, k, v), calls[1..]);
      case ClearAll =>
        SameInstances(Clear(s), calls[1..]);
    }
  }
}
