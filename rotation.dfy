/** The rotation state of `getRotatedResponse`: the global `responseHistory`,
    an object from context to an object from sub-context to the index of the
    variant served last. Module Engine updates it in place; this module gives
    the update as a function of the old state and proves what it does to the
    state over any number of calls. */
module Rotation {
  import opened Dialogue

  /** `responseHistory`: the per-context objects are created lazily. */
  type History = map<Context, map<SubContext, nat>>

  /** `!responseHistory[context][subContext]` after the per-context object
      exists: the entry is missing, or it is 0, which JavaScript treats as
      false just like a missing entry. */
  predicate Unset(h: History, c: Context, s: SubContext)
  {
    c !in h || s !in h[c] || h[c][s] == 0
  }

  /** One call of `getRotatedResponse(c, s, responses)` with n variants: the
      index of the text it returns, and the history afterwards. An unset entry
      is set to 0; a set one advances by one, modulo n. */
  function Rotate(h: History, c: Context, s: SubContext, n: nat): (res: (nat, History))
    requires n > 0
    ensures res.0 < n
    ensures Unset(h, c, s) ==> res.0 == 0
    ensures !Unset(h, c, s) ==> res.0 == (h[c][s] + 1) % n
    ensures c in res.1 && s in res.1[c] && res.1[c][s] == res.0
    ensures res.1.Keys == h.Keys + {c}
    ensures forall c' :: c' in h && c' != c ==> res.1[c'] == h[c']
    ensures res.1[c].Keys == (if c in h then h[c].Keys else {}) + {s}
    ensures forall s' :: c in h && s' in h[c] && s' != s ==> res.1[c][s'] == h[c][s']
  {
    var inner := if c in h then h[c] else map[];
    var i := if s !in inner || inner[s] == 0 then 0 else (inner[s] + 1) % n;
    (i, h[c := inner[s := i]])
  }

  /** Every stored index is 0. */
  predicate AllZero(h: History)
  {
    forall c, s :: c in h && s in h[c] ==> h[c][s] == 0
  }

  /** From a history whose indices are all 0, a call serves the first text
      and stores 0 again: the advancing branch is never taken. */
  lemma RotateStaysAtFirst(h: History, c: Context, s: SubContext, n: nat)
    requires n > 0 && AllZero(h)
    ensures Unset(h, c, s)
    ensures Rotate(h, c, s, n).0 == 0
    ensures AllZero(Rotate(h, c, s, n).1)
  {
    var h' := Rotate(h, c, s, n).1;
    forall c', s' | c' in h' && s' in h'[c']
      ensures h'[c'][s'] == 0
    {
      if c' != c {
        assert h'[c'] == h[c'];
      } else if s' != s {
        assert s' in h[c];
      }
    }
  }

  /** A call of the rotator: its context, its sub-context and the length of
      its `responses` array. */
  datatype Call = Call(context: Context, sub: SubContext, count: nat)

  /** The indices a sequence of calls serves, one per call, and the history
      after the last one. */
  function Run(h: History, calls: seq<Call>): (res: (seq<nat>, History))
    requires forall k :: 0 <= k < |calls| ==> calls[k].count > 0
    ensures |res.0| == |calls|
    ensures forall k :: 0 <= k < |calls| ==> res.0[k] < calls[k].count
    decreases |calls|
  {
    if calls == [] then ([], h)
    else
      var (i, h1) := Rotate(h, calls[0].context, calls[0].sub, calls[0].count);
      var (rest, h2) := Run(h1, calls[1..]);
      ([i] + rest, h2)
  }

  /** Starting from an empty history (or any whose indices are all 0), every
      call of any sequence serves index 0 and the history stays all-zero: the
      texts never rotate. */
  lemma {:induction false} RunServesFirst(h: History, calls: seq<Call>)
    requires forall k :: 0 <= k < |calls| ==> calls[k].count > 0
    requires AllZero(h)
    ensures forall k :: 0 <= k < |calls| ==> Run(h, calls).0[k] == 0
    ensures AllZero(Run(h, calls).1)
    decreases |calls|
  {
    if calls != [] {
      var c := calls[0];
      RotateStaysAtFirst(h, c.context, c.sub, c.count);
      var h1 := Rotate(h, c.context, c.sub, c.count).1;
      RunServesFirst(h1, calls[1..]);
    }
  }

  /** The same sub-topic asked twice in a row gets the same text twice,
      although the advancing branch would give index 1 the second time. */
  lemma SecondCallRepeats(c: Context, s: SubContext, n: nat)
    requires n > 1
    ensures Run(map[], [Call(c, s, n), Call(c, s, n)]).0 == [0, 0]
  {
    RunServesFirst(map[], [Call(c, s, n), Call(c, s, n)]);
  }
}
