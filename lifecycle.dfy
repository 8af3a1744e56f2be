/**
 * The calls the adapter makes on the external player library, as a trace, and
 * the protocol every trace the adapter produces follows: a player is created
 * only while no other is live, is disposed at most once, and receives calls
 * only between its creation and its disposal.
 */
module Lifecycle {
  import opened Js
  import opened Dom
  import opened Reconciler

  /** An opaque player returned by the library's constructor. */
  datatype Player = Player(id: nat)

  /** One call into the player library. */
  datatype Call =
    | Created(player: Player, element: VideoElement, options: Options)  // the constructor returned `player`
    | CreateFailed(element: VideoElement, options: Options)            // the constructor threw
    | Dispose(player: Player)
    | Invoke(player: Player, op: Op)

  /** Players created and not yet disposed after the calls in `t`. */
  function Live(t: seq<Call>): set<Player>
    decreases |t|
  {
    if t == [] then {}
    else if t[|t| - 1].Created? then Live(t[..|t| - 1]) + {t[|t| - 1].player}
    else if t[|t| - 1].Dispose? then Live(t[..|t| - 1]) - {t[|t| - 1].player}
    else Live(t[..|t| - 1])
  }

  /** Every player created by the calls in `t`. */
  function CreatedIn(t: seq<Call>): set<Player>
    decreases |t|
  {
    if t == [] then {}
    else if t[|t| - 1].Created? then CreatedIn(t[..|t| - 1]) + {t[|t| - 1].player}
    else CreatedIn(t[..|t| - 1])
  }

  function CountCreated(t: seq<Call>, p: Player): nat
    decreases |t|
  {
    if t == [] then 0
    else CountCreated(t[..|t| - 1], p) + if t[|t| - 1].Created? && t[|t| - 1].player == p then 1 else 0
  }

  function CountDisposed(t: seq<Call>, p: Player): nat
    decreases |t|
  {
    if t == [] then 0
    else CountDisposed(t[..|t| - 1], p) + if t[|t| - 1] == Dispose(p) then 1 else 0
  }

  /** Whether call `c` may follow the calls in `before`. */
  predicate Allowed(before: seq<Call>, c: Call) {
    match c
    case Created(p, _, _) => Live(before) == {} && p !in CreatedIn(before)
    case CreateFailed(_, _) => Live(before) == {}
    case Dispose(p) => p in Live(before)
    case Invoke(p, _) => p in Live(before)
  }

  /** Every call in `t` is allowed after the calls before it. */
  predicate Protocol(t: seq<Call>)
    decreases |t|
  {
    t == [] || (Protocol(t[..|t| - 1]) && Allowed(t[..|t| - 1], t[|t| - 1]))
  }

  /** The calls on player `p` that make the operations `ops`, in order. */
  function Invocations(p: Player, ops: seq<Op>): (calls: seq<Call>)
    ensures |calls| == |ops|
    ensures forall i | 0 <= i < |ops| :: calls[i] == Invoke(p, ops[i])
  {
    seq(|ops|, i requires 0 <= i < |ops| => Invoke(p, ops[i]))
  }

  /** Appending one call: how the protocol, the live set and the created set extend. */
  lemma Extend(t: seq<Call>, c: Call)
    ensures Protocol(t + [c]) <==> Protocol(t) && Allowed(t, c)
    ensures Live(t + [c]) ==
      if c.Created? then Live(t) + {c.player}
      else if c.Dispose? then Live(t) - {c.player}
      else Live(t)
    ensures CreatedIn(t + [c]) == if c.Created? then CreatedIn(t) + {c.player} else CreatedIn(t)
  {
    assert (t + [c])[..|t|] == t;
  }

  /** Calls on a live player keep the protocol and change no player's status. */
  lemma {:induction false} InvocationsKeepProtocol(t: seq<Call>, p: Player, ops: seq<Op>)
    requires Protocol(t) && p in Live(t)
    ensures Protocol(t + Invocations(p, ops))
    ensures Live(t + Invocations(p, ops)) == Live(t)
    ensures CreatedIn(t + Invocations(p, ops)) == CreatedIn(t)
    decreases |ops|
  {
    if ops == [] {
      assert t + Invocations(p, ops) == t;
    } else {
      var init := ops[..|ops| - 1];
      InvocationsKeepProtocol(t, p, init);
      assert t + Invocations(p, ops) == (t + Invocations(p, init)) + [Invoke(p, ops[|ops| - 1])];
      Extend(t + Invocations(p, init), Invoke(p, ops[|ops| - 1]));
    }
  }

  lemma {:induction false} LiveWereCreated(t: seq<Call>)
    ensures Live(t) <= CreatedIn(t)
    decreases |t|
  {
    if t != [] {
      LiveWereCreated(t[..|t| - 1]);
    }
  }

  lemma {:induction false} ProtocolPrefix(t: seq<Call>, n: nat)
    requires Protocol(t) && n <= |t|
    ensures Protocol(t[..n])
    decreases |t|
  {
    if n < |t| {
      assert t[..|t| - 1][..n] == t[..n];
      ProtocolPrefix(t[..|t| - 1], n);
    } else {
      assert t[..n] == t;
    }
  }

  /** At every point, at most one player is live. */
  lemma {:induction false} AtMostOneLive(t: seq<Call>)
    requires Protocol(t)
    ensures |Live(t)| <= 1
    decreases |t|
  {
    if t != [] {
      var before := t[..|t| - 1];
      AtMostOneLive(before);
      match t[|t| - 1]
      case Created(p, _, _) =>
        assert Live(t) == {p};
      case Dispose(p) =>
        assert Live(t) <= Live(before);
      case _ =>
    }
  }

  lemma {:induction false} NotCreatedNotCounted(t: seq<Call>, p: Player)
    requires p !in CreatedIn(t)
    ensures CountCreated(t, p) == 0
    decreases |t|
  {
    if t != [] {
      NotCreatedNotCounted(t[..|t| - 1], p);
    }
  }

  /**
   * Each player is created at most once, and is disposed once exactly when it
   * was created and is no longer live: never twice, and never without having
   * been created.
   */
  lemma {:induction false} CreatedOnceDisposedOnce(t: seq<Call>, p: Player)
    requires Protocol(t)
    ensures CountCreated(t, p) <= 1
    ensures CountCreated(t, p) == CountDisposed(t, p) + if p in Live(t) then 1 else 0
    decreases |t|
  {
    if t != [] {
      var before := t[..|t| - 1];
      CreatedOnceDisposedOnce(before, p);
      match t[|t| - 1]
      case Created(q, _, _) =>
        if q == p {
          NotCreatedNotCounted(before, p);
        }
      case Dispose(q) =>
      case CreateFailed(_, _) =>
      case Invoke(_, _) =>
    }
  }

  lemma {:induction false} StaysDisposed(t: seq<Call>, n: nat, p: Player)
    requires Protocol(t) && n <= |t|
    requires p in CreatedIn(t[..n]) && p !in Live(t[..n])
    ensures p in CreatedIn(t) && p !in Live(t)
    decreases |t|
  {
    if n == |t| {
      assert t[..n] == t;
    } else {
      var before := t[..|t| - 1];
      assert before[..n] == t[..n];
      StaysDisposed(before, n, p);
    }
  }

  /** After a player is disposed, it is never disposed again and receives no further call. */
  lemma NoUseAfterDispose(t: seq<Call>, i: nat, j: nat, p: Player)
    requires Protocol(t) && i < j < |t|
    requires t[i] == Dispose(p)
    ensures t[j] != Dispose(p) && !(t[j].Invoke? && t[j].player == p)
  {
    ProtocolPrefix(t, i + 1);
    assert t[..i + 1][..i] == t[..i];
    LiveWereCreated(t[..i]);
    Extend(t[..i], t[i]);
    assert t[..i + 1] == t[..i] + [t[i]];
    ProtocolPrefix(t, j + 1);
    assert t[..j + 1][..j] == t[..j];
    assert t[..j][..i + 1] == t[..i + 1];
    assert p in CreatedIn(t[..i + 1]) && p !in Live(t[..i + 1]);
    StaysDisposed(t[..j], i + 1, p);
  }

  /** Disposal and reconciliation calls only ever reach a player created earlier in the trace. */
  lemma OnlyCreatedPlayersAreUsed(t: seq<Call>, i: nat)
    requires Protocol(t) && i < |t|
    requires t[i].Dispose? || t[i].Invoke?
    ensures t[i].player in CreatedIn(t[..i])
  {
    ProtocolPrefix(t, i + 1);
    assert t[..i + 1][..i] == t[..i];
    assert t[..i + 1][i] == t[i];
    LiveWereCreated(t[..i]);
  }
}
