/**
 * The conversation store of app/services/redis_client.py: one key space of
 * JSON values, holding each user's dialogue state under `state:<id>` and the
 * last ten messages under `context:<id>`.
 */
module Redis {
  import opened Wrappers
  import opened Text
  import opened Json

  /** How many messages the context keeps. */
  const ContextLimit := 10

  function StateKey(userId: int): string {
    "state:" + IntToString(userId)
  }

  function ContextKey(userId: int): string {
    "context:" + IntToString(userId)
  }

  /** Different users' state keys never collide. */
  lemma StateKeyInjective(a: int, b: int)
    requires StateKey(a) == StateKey(b)
    ensures a == b
  {
    assert StateKey(a)[6..] == IntToString(a);
    assert StateKey(b)[6..] == IntToString(b);
    IntToStringInjective(a, b);
  }

  /** Different users' context keys never collide. */
  lemma ContextKeyInjective(a: int, b: int)
    requires ContextKey(a) == ContextKey(b)
    ensures a == b
  {
    assert ContextKey(a)[8..] == IntToString(a);
    assert ContextKey(b)[8..] == IntToString(b);
    IntToStringInjective(a, b);
  }

  /** A state key is never a context key, whoever the users are. */
  lemma KeysDisjoint(a: int, b: int)
    ensures StateKey(a) != ContextKey(b)
  {
    assert StateKey(a)[0] == 's' && ContextKey(b)[0] == 'c';
  }

  /** `xs[-n:]` when the list is longer than `n`, and the list itself otherwise. */
  function LastN<T>(xs: seq<T>, n: nat): (r: seq<T>)
    ensures |r| == if |xs| > n then n else |xs|
    ensures r == xs[|xs| - |r|..]
  {
    if |xs| > n then xs[|xs| - n..] else xs
  }

  /** The context after `add_to_context(message)`: the message appended, then only the last ten kept. */
  function Window(context: seq<Value>, message: Value): (r: seq<Value>)
    ensures 1 <= |r| <= ContextLimit && r[|r| - 1] == message
  {
    LastN(context + [message], ContextLimit)
  }

  /** Trimming first and then adding one message is the same as keeping the last ten of the whole history. */
  lemma WindowOfWindow(history: seq<Value>, message: Value)
    ensures Window(LastN(history, ContextLimit), message) == LastN(history + [message], ContextLimit)
  {
    var h := history + [message];
    var w := LastN(history, ContextLimit) + [message];
    assert w == h[|h| - |w|..];
  }

  /** The context built from nothing by adding `messages` one at a time. */
  function Replay(messages: seq<Value>): seq<Value>
    decreases |messages|
  {
    if messages == [] then [] else Window(Replay(messages[..|messages| - 1]), messages[|messages| - 1])
  }

  /** However many messages arrive, the context is exactly the last ten of them, in order. */
  lemma {:induction false} ReplayKeepsLastTen(messages: seq<Value>)
    ensures Replay(messages) == LastN(messages, ContextLimit)
    decreases |messages|
  {
    if messages != [] {
      var init := messages[..|messages| - 1];
      ReplayKeepsLastTen(init);
      WindowOfWindow(init, messages[|messages| - 1]);
      assert init + [messages[|messages| - 1]] == messages;
    }
  }

  // ---------------------------------------------------------------- the key space as a value

  /** What `get_state(user_id)` returns from the key space `kv`: the stored object, or `None`. */
  function StateIn(kv: map<string, Value>, userId: int): Option<Object> {
    var key := StateKey(userId);
    if key in kv && kv[key].Dict? then Some(kv[key].entries) else None
  }

  /** What `get_context(user_id)` returns from `kv`: the stored list, or `[]`. */
  function ContextIn(kv: map<string, Value>, userId: int): seq<Value> {
    var key := ContextKey(userId);
    if key in kv && kv[key].List? then kv[key].elems else []
  }

  /** The key space after `set_state(user_id, state)`. */
  function Store(kv: map<string, Value>, userId: int, state: Object): map<string, Value> {
    kv[StateKey(userId) := Dict(state)]
  }

  /** The key space after `delete_state(user_id)`. */
  function Drop(kv: map<string, Value>, userId: int): map<string, Value> {
    kv - {StateKey(userId)}
  }

  /** The key space after `add_to_context(user_id, message)`. */
  function Remember(kv: map<string, Value>, userId: int, message: Value): map<string, Value> {
    kv[ContextKey(userId) := List(Window(ContextIn(kv, userId), message))]
  }

  /** After `set_state(u, s)`, `get_state(u)` is `s`; no other user's state and no context changes. */
  lemma StoreSpec(kv: map<string, Value>, userId: int, state: Object, other: int)
    ensures StateIn(Store(kv, userId, state), other) == if other == userId then Some(state) else StateIn(kv, other)
    ensures ContextIn(Store(kv, userId, state), other) == ContextIn(kv, other)
  {
    KeysDisjoint(userId, other);
    if StateKey(other) == StateKey(userId) { StateKeyInjective(other, userId); }
  }

  /** After `delete_state(u)`, `get_state(u)` is `None`; no other user's state and no context changes. */
  lemma DropSpec(kv: map<string, Value>, userId: int, other: int)
    ensures StateIn(Drop(kv, userId), other) == if other == userId then None else StateIn(kv, other)
    ensures ContextIn(Drop(kv, userId), other) == ContextIn(kv, other)
  {
    KeysDisjoint(userId, other);
    if StateKey(other) == StateKey(userId) { StateKeyInjective(other, userId); }
  }

  /** Writing a context list under `u`'s key moves only `u`'s context, and no state. */
  lemma PutContextSpec(kv: map<string, Value>, userId: int, context: seq<Value>, other: int)
    ensures ContextIn(kv[ContextKey(userId) := List(context)], other) ==
      if other == userId then context else ContextIn(kv, other)
    ensures StateIn(kv[ContextKey(userId) := List(context)], other) == StateIn(kv, other)
  {
    KeysDisjoint(other, userId);
    if other != userId && ContextKey(other) == ContextKey(userId) { ContextKeyInjective(other, userId); }
  }

  /** `add_to_context(u, m)` moves only `u`'s window, and leaves every state alone. */
  lemma RememberSpec(kv: map<string, Value>, userId: int, message: Value, other: int)
    ensures ContextIn(Remember(kv, userId, message), other) ==
      if other == userId then Window(ContextIn(kv, userId), message) else ContextIn(kv, other)
    ensures StateIn(Remember(kv, userId, message), other) == StateIn(kv, other)
  {
    PutContextSpec(kv, userId, Window(ContextIn(kv, userId), message), other);
  }

  /** Two messages added in a row are the last two entries of the window, and the state is untouched. */
  lemma RememberTwice(kv: map<string, Value>, userId: int, u: Value, a: Value)
    ensures var c := ContextIn(Remember(Remember(kv, userId, u), userId, a), userId);
      c == LastN(ContextIn(kv, userId) + [u, a], ContextLimit) &&
      |c| >= 2 && c[|c| - 2] == u && c[|c| - 1] == a
    ensures StateIn(Remember(Remember(kv, userId, u), userId, a), userId) == StateIn(kv, userId)
  {
    var kv1 := Remember(kv, userId, u);
    RememberSpec(kv, userId, u, userId);
    RememberSpec(kv1, userId, a, userId);
    var h := ContextIn(kv, userId) + [u];
    WindowOfWindow(h, a);
    assert h + [a] == ContextIn(kv, userId) + [u, a];
    var xs := h + [a];
    var c := LastN(xs, ContextLimit);
    assert c == xs[|xs| - |c|..];
    assert c[|c| - 2] == xs[|xs| - 2];
  }

  /** State keys hold objects and context keys hold lists, as the setters write them. */
  ghost predicate WellTyped(kv: map<string, Value>) {
    (forall u: int :: StateKey(u) in kv ==> kv[StateKey(u)].Dict?) &&
    (forall u: int :: ContextKey(u) in kv ==> kv[ContextKey(u)].List?)
  }

  lemma StoreWellTyped(kv: map<string, Value>, userId: int, state: Object)
    requires WellTyped(kv)
    ensures WellTyped(Store(kv, userId, state))
  {
    var kv' := Store(kv, userId, state);
    forall u: int | ContextKey(u) in kv' ensures kv'[ContextKey(u)].List? {
      KeysDisjoint(userId, u);
    }
  }

  lemma DropWellTyped(kv: map<string, Value>, userId: int)
    requires WellTyped(kv)
    ensures WellTyped(Drop(kv, userId))
  {
  }

  lemma PutContextWellTyped(kv: map<string, Value>, userId: int, context: seq<Value>)
    requires WellTyped(kv)
    ensures WellTyped(kv[ContextKey(userId) := List(context)])
  {
    var kv' := kv[ContextKey(userId) := List(context)];
    forall u: int | StateKey(u) in kv' ensures kv'[StateKey(u)].Dict? {
      KeysDisjoint(u, userId);
    }
  }

  lemma RememberWellTyped(kv: map<string, Value>, userId: int, message: Value)
    requires WellTyped(kv)
    ensures WellTyped(Remember(kv, userId, message))
  {
    PutContextWellTyped(kv, userId, Window(ContextIn(kv, userId), message));
  }

  class RedisClient {
    /** The key space; each value is the decoded JSON text of its key. */
    var kv: map<string, Value>

    constructor ()
      ensures kv == map[] && Valid()
    {
      kv := map[];
    }

    ghost predicate Valid()
      reads this
    {
      WellTyped(kv)
    }

    function StateOf(userId: int): Option<Object>
      reads this
    {
      StateIn(kv, userId)
    }

    function ContextOf(userId: int): seq<Value>
      reads this
    {
      ContextIn(kv, userId)
    }

    method GetState(userId: int) returns (state: Option<Object>)
      requires Valid()
      ensures state == StateOf(userId)
      ensures state.Some? <==> StateKey(userId) in kv
    {
      var key := StateKey(userId);
      if key in kv {
        state := Some(kv[key].entries);
      } else {
        state := None;
      }
    }

    method SetState(userId: int, state: Object)
      requires Valid()
      modifies this
      ensures Valid() && kv == Store(old(kv), userId, state)
    {
      StoreWellTyped(kv, userId, state);
      kv := kv[StateKey(userId) := Dict(state)];
    }

    method DeleteState(userId: int)
      requires Valid()
      modifies this
      ensures Valid() && kv == Drop(old(kv), userId)
    {
      DropWellTyped(kv, userId);
      kv := kv - {StateKey(userId)};
    }

    method GetContext(userId: int) returns (context: seq<Value>)
      requires Valid()
      ensures context == ContextOf(userId)
    {
      var key := ContextKey(userId);
      if key in kv {
        context := kv[key].elems;
      } else {
        context := [];
      }
    }

    method AddToContext(userId: int, message: Value)
      requires Valid()
      modifies this
      ensures Valid() && kv == Remember(old(kv), userId, message)
    {
      RememberWellTyped(kv, userId, message);
      var context := GetContext(userId);
      ghost var before := context;
      context := context + [message];
      if |context| > ContextLimit {
        context := context[|context| - ContextLimit..];
      }
      assert context == Window(before, message);
      kv := kv[ContextKey(userId) := List(context)];
    }
  }
}
