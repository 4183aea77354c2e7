/**
 * Last-in-first-out stacks as sequences whose top is the LAST element.
 *
 * The parser keeps three `std::stack`s (errors, warnings, prim path); this
 * module gives their abstract value and the laws of push and of the guarded
 * pop that the parser uses (`if (!empty()) pop();`).
 */
module Lifo {

  /** The most recently pushed element. */
  function Top<T>(s: seq<T>): T
    requires s != []
  {
    s[|s| - 1]
  }

  /** `push(x)`: `x` becomes the top and everything below is kept as it was. */
  function Push<T>(s: seq<T>, x: T): (r: seq<T>)
    ensures |r| == |s| + 1
    ensures Top(r) == x
    ensures r[..|s|] == s
  {
    s + [x]
  }

  /**
   * The guarded pop: on a non-empty stack exactly the most recent element is
   * removed; on an empty stack nothing changes.
   */
  function Pop<T>(s: seq<T>): (r: seq<T>)
    ensures s == [] ==> r == []
    ensures s != [] ==> |r| == |s| - 1 && r + [Top(s)] == s
  {
    if s == [] then [] else s[..|s| - 1]
  }

  /** Pushes every element of `xs`, first one first. */
  function PushAll<T>(s: seq<T>, xs: seq<T>): (r: seq<T>)
    ensures r == s + xs
    decreases |xs|
  {
    if xs == [] then s else PushAll(Push(s, xs[0]), xs[1..])
  }

  /**
   * `n` guarded pops in a row: removes the `n` most recent elements, or
   * empties the stack when it holds fewer than `n`.
   */
  function PopN<T>(s: seq<T>, n: nat): (r: seq<T>)
    ensures n <= |s| ==> r == s[..|s| - n]
    ensures n > |s| ==> r == []
  {
    if n == 0 then s else PopN(Pop(s), n - 1)
  }

  /** A pop right after a push cancels it. */
  lemma PopAfterPush<T>(s: seq<T>, x: T)
    ensures Pop(Push(s, x)) == s
  {
  }

  /**
   * A speculative production that pushed `xs` and is then abandoned can
   * cancel all of it with one pop per push: the stack is as before.
   */
  lemma CancelPushes<T>(s: seq<T>, xs: seq<T>)
    ensures PopN(PushAll(s, xs), |xs|) == s
  {
  }

  /** Pops never touch what lies below the elements they remove. */
  lemma PopNKeepsBottom<T>(s: seq<T>, below: seq<T>, n: nat)
    requires n <= |s|
    ensures PopN(below + s, n) == below + PopN(s, n)
  {
  }
}
