/** A consumer that is delivered each message at least once: it readings a log from the start, and begins again at any
  * earlier message, any number of times. */
module Redelivery {
  import opened Common

  /** The messages from one index up to another, in order. */
  datatype Reading = Reading(from: nat, to: nat)

  function Cursor(readings: seq<Reading>): nat {
    if readings == [] then 0 else readings[|readings| - 1].to
  }

  /** How far the consumer ever got. */
  function Reached(readings: seq<Reading>): nat {
    if readings == [] then 0
    else
      var before, to := Reached(readings[..|readings| - 1]), readings[|readings| - 1].to;
      if before <= to then to else before
  }

  /** Each reading goes on where the one before stopped, or begins again before that. */
  ghost predicate Consumes<E>(log: seq<E>, readings: seq<Reading>) {
    readings != [] ==>
      var init, r := readings[..|readings| - 1], readings[|readings| - 1];
      Consumes(log, init) && r.from <= Cursor(init) && r.from <= r.to <= |log|
  }

  ghost function Delivered<E>(log: seq<E>, readings: seq<Reading>): seq<E>
    requires Consumes(log, readings)
  {
    if readings == [] then []
    else Delivered(log, readings[..|readings| - 1]) + log[readings[|readings| - 1].from..readings[|readings| - 1].to]
  }

  lemma {:induction false} CursorReached<E>(log: seq<E>, readings: seq<Reading>)
    requires Consumes(log, readings)
    ensures Cursor(readings) <= Reached(readings) <= |log|
  {
    if readings == [] {
    } else {
      CursorReached(log, readings[..|readings| - 1]);
    }
  }

  // ---------- absolute writes ----------

  /** What the last message that writes to a register writes there, when each write is absolute. */
  function LastWrite<E, R, V>(w: (E, R) -> Option<V>, es: seq<E>, r: R): Option<V> {
    if es == [] then None
    else
      var x := w(es[|es| - 1], r);
      if x.Some? then x else LastWrite(w, es[..|es| - 1], r)
  }

  lemma {:induction false} LastWriteSplit<E, R, V>(w: (E, R) -> Option<V>, a: seq<E>, b: seq<E>, r: R)
    ensures LastWrite(w, a + b, r) == if LastWrite(w, b, r).Some? then LastWrite(w, b, r) else LastWrite(w, a, r)
  {
    if b == [] {
      assert a + b == a;
    } else {
      LastWriteSplit(w, a, b[..|b| - 1], r);
      assert (a + b)[..|a + b| - 1] == a + b[..|b| - 1];
    }
  }

  lemma LastWriteRange<E, R, V>(w: (E, R) -> Option<V>, log: seq<E>, i: nat, k: nat, j: nat, r: R)
    requires i <= k <= j <= |log|
    ensures LastWrite(w, log[i..j], r) ==
            if LastWrite(w, log[k..j], r).Some? then LastWrite(w, log[k..j], r) else LastWrite(w, log[i..k], r)
  {
    assert log[i..j] == log[i..k] + log[k..j];
    LastWriteSplit(w, log[i..k], log[k..j], r);
  }

  /** What was left in a register is right for the cursor, or is written again before the furthest message that was
    * ever reached. */
  ghost predicate Repairs<E, R, V>(w: (E, R) -> Option<V>, log: seq<E>, c: nat, m: nat, left: Option<V>, r: R)
    requires c <= m <= |log|
  {
    LastWrite(w, log[c..m], r).Some? || left == LastWrite(w, log[..c], r)
  }

  lemma ReadOn<E, R, V>(w: (E, R) -> Option<V>, log: seq<E>, c: nat, m: nat, left: Option<V>, from: nat, to: nat, r: R)
    requires c <= m <= |log| && from <= c && from <= to <= |log| && Repairs(w, log, c, m, left, r)
    ensures var again := LastWrite(w, log[from..to], r);
      Repairs(w, log, to, if m <= to then to else m, if again.Some? then again else left, r)
  {
    hide LastWrite;
    var n := if m <= to then to else m;
    LastWriteRange(w, log, from, c, m, r);
    LastWriteRange(w, log, from, m, n, r);
    LastWriteRange(w, log, from, to, n, r);
    LastWriteRange(w, log, 0, from, c, r);
    LastWriteRange(w, log, 0, from, to, r);
    assert log[0..c] == log[..c] && log[0..to] == log[..to];
  }

  lemma {:induction false} AlwaysRepairs<E, R, V>(w: (E, R) -> Option<V>, log: seq<E>, readings: seq<Reading>, r: R)
    requires Consumes(log, readings)
    ensures Cursor(readings) <= Reached(readings) <= |log|
    ensures Repairs(w, log, Cursor(readings), Reached(readings), LastWrite(w, Delivered(log, readings), r), r)
  {
    CursorReached(log, readings);
    if readings == [] {
    } else {
      var init, last := readings[..|readings| - 1], readings[|readings| - 1];
      CursorReached(log, init);
      AlwaysRepairs(w, log, init, r);
      ReadOn(w, log, Cursor(init), Reached(init), LastWrite(w, Delivered(log, init), r), last.from, last.to, r);
      LastWriteSplit(w, Delivered(log, init), log[last.from..last.to], r);
    }
  }

  /** Once the consumer is back where it got to, all is as if it had read each message once. */
  lemma {:induction false} CaughtUp<E, R, V>(w: (E, R) -> Option<V>, log: seq<E>, readings: seq<Reading>, r: R)
    requires Consumes(log, readings) && Cursor(readings) == Reached(readings)
    ensures Cursor(readings) <= |log|
    ensures LastWrite(w, Delivered(log, readings), r) == LastWrite(w, log[..Cursor(readings)], r)
  {
    AlwaysRepairs(w, log, readings, r);
    assert log[Cursor(readings)..Reached(readings)] == [];
  }

  // ---------- the messages of one key ----------

  function Of<E>(key: E -> string, log: seq<E>, id: string): seq<E> {
    if log == [] then []
    else
      var init, e := Of(key, log[..|log| - 1], id), log[|log| - 1];
      if key(e) == id then init + [e] else init
  }

  lemma {:induction false} OfSplit<E>(key: E -> string, a: seq<E>, b: seq<E>, id: string)
    ensures Of(key, a + b, id) == Of(key, a, id) + Of(key, b, id)
  {
    if b == [] {
      assert a + b == a;
    } else {
      OfSplit(key, a, b[..|b| - 1], id);
      assert (a + b)[..|a + b| - 1] == a + b[..|b| - 1];
    }
  }

  lemma OfRange<E>(key: E -> string, log: seq<E>, i: nat, j: nat, id: string)
    requires i <= j <= |log|
    ensures Of(key, log[..j], id) == Of(key, log[..i], id) + Of(key, log[i..j], id)
    ensures Of(key, log[..j], id) <= Of(key, log, id)
  {
    assert log[..j] == log[..i] + log[i..j] && log == log[..j] + log[j..];
    OfSplit(key, log[..i], log[i..j], id);
    OfSplit(key, log[..j], log[j..], id);
  }

  /** The first message of a key is delivered first, and is delivered when it was reached. */
  lemma {:induction false} DeliveredFirst<E>(key: E -> string, log: seq<E>, readings: seq<Reading>, id: string)
    requires Consumes(log, readings)
    ensures Reached(readings) <= |log|
    ensures Of(key, Delivered(log, readings), id) == [] <==> Of(key, log[..Reached(readings)], id) == []
    ensures Of(key, Delivered(log, readings), id) != [] ==>
              Of(key, log, id) != [] && Of(key, Delivered(log, readings), id)[0] == Of(key, log, id)[0]
  {
    CursorReached(log, readings);
    if readings == [] {
      assert log[..0] == [];
    } else {
      var init, r := readings[..|readings| - 1], readings[|readings| - 1];
      CursorReached(log, init);
      DeliveredFirst(key, log, init, id);
      OfSplit(key, Delivered(log, init), log[r.from..r.to], id);
      OfRange(key, log, r.from, r.to, id);
      OfRange(key, log, r.from, Reached(init), id);
      OfRange(key, log, Reached(init), Reached(readings), id);
      OfRange(key, log, r.to, Reached(readings), id);
    }
  }
}
