/**
 * The counter state of the game (src/state.js): the current number and the
 * best number reached, changed in place by two setters, `increment` and
 * `reset`. Each of these emits an update notification carrying both numbers
 * and hands the record `{best}` to the persistence layer; `loadState` reads
 * only `best` back and does neither.
 */
module GameState {
  import opened Options

  /** Both numbers, as carried by an update notification. */
  datatype Snapshot = Snapshot(currentNumber: int, best: int)

  /** The persisted record: only `best`. */
  datatype Record = Record(best: int)

  /** The four mutators of the state. */
  datatype Op =
    | Increment
    | Reset
    | SetCurrentNumber(number: int)
    | SetBest(number: int)

  function Max(a: int, b: int): int
  {
    if a >= b then a else b
  }

  /** The effect of one mutator on both numbers. */
  function Apply(s: Snapshot, op: Op): Snapshot
  {
    match op
    case Increment =>
      var n := s.currentNumber + 1;
      Snapshot(n, Max(n, s.best))
    case Reset => Snapshot(0, s.best)
    case SetCurrentNumber(n) => Snapshot(n, Max(n, s.best))
    case SetBest(n) => Snapshot(s.currentNumber, n)
  }

  /** The numbers after a sequence of mutators. */
  function Run(s: Snapshot, ops: seq<Op>): Snapshot
    decreases |ops|
  {
    if ops == [] then s else Run(Apply(s, ops[0]), ops[1..])
  }

  /** The update notifications a sequence of mutators emits, in order. */
  function Emitted(s: Snapshot, ops: seq<Op>): seq<Snapshot>
    decreases |ops|
  {
    if ops == [] then [] else [Apply(s, ops[0])] + Emitted(Apply(s, ops[0]), ops[1..])
  }

  /** What `persist` writes for a state. */
  function Persisted(s: Snapshot): (r: Record)
    ensures r.best == s.best
  {
    Record(s.best)
  }

  /** What `loadState` leaves: `best` from a record that could be read and
      parsed, nothing changed otherwise. */
  function Load(s: Snapshot, file: Option<Record>): (r: Snapshot)
    ensures r.currentNumber == s.currentNumber
    ensures r.best == if file.Some? then file.value.best else s.best
  {
    match file
    case None => s
    case Some(record) => Snapshot(s.currentNumber, record.best)
  }

  /** `best` bounds the current number and is never negative. */
  predicate Consistent(s: Snapshot)
  {
    s.best >= s.currentNumber && s.best >= 0
  }

  predicate NoSetBest(ops: seq<Op>)
  {
    forall i :: 0 <= i < |ops| ==> !ops[i].SetBest?
  }

  // ---------------------------------------------------------------------
  // What each mutator does

  /** `increment` adds exactly one; `best` becomes the larger of the old
      best and the new current number. This restates the `Increment` case
      of `Apply` in the words of the promise. */
  lemma IncrementEffect(s: Snapshot)
    ensures Apply(s, Increment).currentNumber == s.currentNumber + 1
    ensures Apply(s, Increment).best == Max(s.best, s.currentNumber + 1)
  {
  }

  /** `reset` sets the current number to zero and keeps `best`; the `Reset`
      case of `Apply`, restated in the words of the promise. */
  lemma ResetEffect(s: Snapshot)
    ensures Apply(s, Reset) == Snapshot(0, s.best)
  {
  }

  /** The current-number setter stores its value and raises `best` to it,
      never lowering it; the `SetCurrentNumber` case of `Apply`, restated in
      the words of the promise. */
  lemma SetCurrentNumberEffect(s: Snapshot, n: int)
    ensures Apply(s, SetCurrentNumber(n)).currentNumber == n
    ensures Apply(s, SetCurrentNumber(n)).best == Max(s.best, n)
  {
  }

  /** After `increment` or the current-number setter, `best` is at least the
      current number, whatever the state before. */
  lemma RaisingOpsBoundCurrent(s: Snapshot, op: Op)
    requires op.Increment? || op.SetCurrentNumber?
    ensures Apply(s, op).best >= Apply(s, op).currentNumber
    ensures Apply(s, op).best >= s.best
  {
  }

  /** The best setter stores any value, so it can take `best` below the
      current number. */
  lemma SetBestCanLowerBest()
    ensures Apply(Snapshot(5, 5), SetBest(2)) == Snapshot(5, 2)
    ensures !Consistent(Apply(Snapshot(5, 5), SetBest(2)))
  {
  }

  // ---------------------------------------------------------------------
  // Sequences of mutators

  /** Without the best setter, `best` never decreases. */
  lemma {:induction false} BestNeverDecreases(s: Snapshot, ops: seq<Op>)
    requires NoSetBest(ops)
    ensures Run(s, ops).best >= s.best
    decreases |ops|
  {
    if ops != [] {
      BestNeverDecreases(Apply(s, ops[0]), ops[1..]);
    }
  }

  /** Without the best setter, a consistent state stays consistent; the
      initial state is consistent. */
  lemma {:induction false} ConsistentPreserved(s: Snapshot, ops: seq<Op>)
    requires Consistent(s) && NoSetBest(ops)
    ensures Consistent(Run(s, ops))
    decreases |ops|
  {
    if ops != [] {
      ConsistentPreserved(Apply(s, ops[0]), ops[1..]);
    }
  }

  /** Each mutator emits exactly one notification; the last one carries the
      final numbers, and each is the state right after its mutator. */
  lemma {:induction false} EmittedTracksRun(s: Snapshot, ops: seq<Op>)
    ensures |Emitted(s, ops)| == |ops|
    ensures ops != [] ==> Emitted(s, ops)[|ops| - 1] == Run(s, ops)
    ensures forall i :: 0 <= i < |ops| ==> Emitted(s, ops)[i] == Run(s, ops[..i + 1])
    decreases |ops|
  {
    if ops != [] {
      var t := Apply(s, ops[0]);
      EmittedTracksRun(t, ops[1..]);
      forall i | 0 <= i < |ops| ensures Emitted(s, ops)[i] == Run(s, ops[..i + 1]) {
        assert ops[..i + 1][0] == ops[0];
        assert ops[..i + 1][1..] == ops[1..][..i];
        if i > 0 {
          assert Emitted(s, ops)[i] == Emitted(t, ops[1..])[i - 1];
        } else {
          assert Run(t, ops[1..][..0]) == t;
        }
      }
      assert ops[..|ops|] == ops;
    }
  }

  /** Reading back what was persisted restores `best` and nothing else. */
  lemma PersistLoadRoundTrip(s: Snapshot, t: Snapshot)
    ensures Load(t, Some(Persisted(s))) == Snapshot(t.currentNumber, s.best)
  {
  }

  // ---------------------------------------------------------------------
  // The state object

  class State {
    var currentNumber: int
    var best: int
    /** The update notifications emitted so far, oldest first. */
    var updates: seq<Snapshot>
    /** The records handed to the persistence layer so far, oldest first. */
    var writes: seq<Record>

    function View(): Snapshot
      reads this
    {
      Snapshot(currentNumber, best)
    }

    constructor ()
      ensures View() == Snapshot(0, 0) && Consistent(View())
      ensures updates == [] && writes == []
    {
      currentNumber, best := 0, 0;
      updates, writes := [], [];
    }

    /** `emitUpdate`: persist `{best}`, then notify with both numbers. */
    method EmitUpdate()
      modifies this
      ensures View() == old(View())
      ensures writes == old(writes) + [Persisted(View())]
      ensures updates == old(updates) + [View()]
    {
      writes := writes + [Persisted(View())];
      updates := updates + [View()];
    }

    /** The `currentNumber` setter. */
    method SetCurrentNumber(number: int)
      modifies this
      ensures currentNumber == number && best == Max(old(best), number)
      ensures View() == Apply(old(View()), Op.SetCurrentNumber(number))
      ensures updates == old(updates) + [View()] && writes == old(writes) + [Persisted(View())]
    {
      currentNumber := number;
      if currentNumber > best {
        best := currentNumber;
      }
      EmitUpdate();
    }

    /** The `best` setter: stores any value. */
    method SetBest(number: int)
      modifies this
      ensures currentNumber == old(currentNumber) && best == number
      ensures View() == Apply(old(View()), Op.SetBest(number))
      ensures updates == old(updates) + [View()] && writes == old(writes) + [Persisted(View())]
    {
      best := number;
      EmitUpdate();
    }

    method Increment()
      modifies this
      ensures currentNumber == old(currentNumber) + 1 && best == Max(old(best), currentNumber)
      ensures View() == Apply(old(View()), Op.Increment)
      ensures updates == old(updates) + [View()] && writes == old(writes) + [Persisted(View())]
    {
      currentNumber := currentNumber + 1;
      if currentNumber > best {
        best := currentNumber;
      }
      EmitUpdate();
    }

    method Reset()
      modifies this
      ensures currentNumber == 0 && best == old(best)
      ensures View() == Apply(old(View()), Op.Reset)
      ensures updates == old(updates) + [View()] && writes == old(writes) + [Persisted(View())]
    {
      currentNumber := 0;
      EmitUpdate();
    }

    /** `loadState`: `file` is the record read back, or `None` when the file
        could not be read or parsed. Emits nothing and writes nothing. */
    method LoadState(file: Option<Record>)
      modifies this
      ensures View() == Load(old(View()), file)
      ensures currentNumber == old(currentNumber)
      ensures updates == old(updates) && writes == old(writes)
    {
      match file {
        case Some(previousState) =>
          best := previousState.best;
        case None =>
      }
    }
  }
}
