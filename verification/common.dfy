/** Vocabulary shared by the room coordinator and the browser agent. */
module Common {

  /** A socket.io connection id. The adapter also uses it as the name of the
      socket's own private room. */
  type SocketId = string

  /** A room name chosen by the user in the welcome form. */
  type RoomName = string

  /** A session description or ICE candidate. Neither side inspects it. */
  type Payload = string

  /** A value that may be absent, as an unset JavaScript `let` is. */
  datatype Option<+T> = None | Some(value: T)

  /** No element occurs twice: a JavaScript `Set` kept in insertion order. */
  predicate NoDup<T(==)>(s: seq<T>) {
    forall i, j | 0 <= i < j < |s| :: s[i] != s[j]
  }

  /** Number of elements of `s` that satisfy `p`. */
  function CountIf<T>(s: seq<T>, p: T -> bool): (n: nat)
    ensures n <= |s|
    ensures n == 0 <==> forall i | 0 <= i < |s| :: !p(s[i])
  {
    if s == [] then 0
    else (if p(s[0]) then 1 else 0) + CountIf(s[1..], p)
  }

  lemma {:induction false} CountIfAppend<T>(a: seq<T>, b: seq<T>, p: T -> bool)
    ensures CountIf(a + b, p) == CountIf(a, p) + CountIf(b, p)
  {
    if a == [] {
      assert a + b == b;
    } else {
      assert (a + b)[1..] == a[1..] + b;
      CountIfAppend(a[1..], b, p);
    }
  }

  /** Handling a sequence of inputs one after another with `step`, which
      maps a state and an input to the next state and what it emitted. */
  function Fold<S, I, O>(step: (S, I) -> (S, seq<O>), st: S, inputs: seq<I>): (S, seq<O>)
    decreases |inputs|
  {
    if inputs == [] then (st, [])
    else
      var (next, outs) := step(st, inputs[0]);
      var (last, rest) := Fold(step, next, inputs[1..]);
      (last, outs + rest)
  }

  /** Two stretches of inputs: the second is handled from where the first
      left off, and the emits are concatenated. */
  lemma {:induction false} FoldAppend<S, I, O>(step: (S, I) -> (S, seq<O>), st: S, x: seq<I>, y: seq<I>)
    ensures Fold(step, st, x + y).0 == Fold(step, Fold(step, st, x).0, y).0
    ensures Fold(step, st, x + y).1 == Fold(step, st, x).1 + Fold(step, Fold(step, st, x).0, y).1
    decreases |x|
  {
    if x == [] {
      assert x + y == y;
    } else {
      assert (x + y)[0] == x[0];
      assert (x + y)[1..] == x[1..] + y;
      FoldAppend(step, step(st, x[0]).0, x[1..], y);
    }
  }
}
