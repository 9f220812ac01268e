/**
 * The replay buffer of the WebSocket hub: a modular array that refines "the last `size` entries
 * ever pushed", and the replay query over it.
 */
module RingBuffer {
  import opened Common

  datatype Entry = Entry(id: nat, data: string)

  /** The entries a buffer of this size still holds after `history` was pushed. */
  function Window(history: seq<Entry>, size: nat): seq<Entry> {
    history[|history| - Min(|history|, size)..]
  }

  /** What the first n entries hold from after the position on. */
  function DataAfter(w: seq<Entry>, n: nat, after: nat): seq<string>
    requires n <= |w|
  {
    if n == 0 then []
    else DataAfter(w, n - 1, after) + if w[n - 1].id > after then [w[n - 1].data] else []
  }

  /** None stands for Go's nil slice, which is also what an append-less loop returns. */
  function Since(w: seq<Entry>, after: nat): Option<seq<string>> {
    if w == [] || after < w[0].id || DataAfter(w, |w|, after) == [] then None
    else Some(DataAfter(w, |w|, after))
  }

  class EventRingBuffer {
    const size: nat
    const entries: array<Entry>
    var pos: nat
    var count: nat
    ghost var history: seq<Entry>

    ghost predicate Valid() reads this, entries {
      && entries.Length == size
      && (size == 0 ==> history == [] && pos == 0)
      && (size > 0 ==> pos == |history| % size)
      && count == Min(|history|, size)
      && (forall j :: |history| - count <= j < |history| ==> InPlace(j))
    }

    ghost predicate InPlace(j: int) reads this, entries {
      0 <= j < |history| && size > 0 && j % size < entries.Length && entries[j % size] == history[j]
    }

    constructor (size: nat)
      ensures Valid() && fresh(entries) && this.size == size && history == []
    {
      this.size := size;
      entries := new Entry[size](_ => Entry(0, ""));
      pos, count, history := 0, 0, [];
    }

    method Push(id: nat, data: string)
      requires Valid() && size > 0
      modifies this, entries
      ensures Valid()
      ensures history == old(history) + [Entry(id, data)]
    {
      ghost var n := |history|;
      NextSlot(n, size);
      entries[pos] := Entry(id, data);
      pos := (pos + 1) % size;
      if count < size {
        count := count + 1;
      }
      history := history + [Entry(id, data)];
      forall j | |history| - count <= j < |history| ensures InPlace(j) {
        assert j < n ==> old(InPlace(j));
      }
    }

    /** The i-th oldest entry still held. */
    method EntryAt(i: nat) returns (e: Entry)
      requires Valid() && i < count
      ensures e == Window(history, size)[i]
    {
      var oldestIdx := (pos + size - count) % size;
      var idx := (oldestIdx + i) % size;
      SlotIndex(|history|, count, size, i);
      assert InPlace(|history| - count + i);
      return entries[idx];
    }

    method EventsSince(after: nat) returns (events: Option<seq<string>>)
      requires Valid()
      ensures events == Since(Window(history, size), after)
    {
      if count == 0 {
        return None;
      }
      ghost var w := Window(history, size);
      var oldest := EntryAt(0);
      if after < oldest.id {
        return None;
      }
      var result: seq<string> := [];
      var i := 0;
      while i < count
        invariant 0 <= i <= count
        invariant result == DataAfter(w, i, after)
      {
        var e := EntryAt(i);
        if e.id > after {
          result := result + [e.data];
        }
        i := i + 1;
      }
      return if result == [] then None else Some(result);
    }

    method OldestSeq() returns (id: nat)
      requires Valid()
      ensures var w := Window(history, size);
              id == if w == [] then 0 else w[0].id
    {
      if count == 0 {
        return 0;
      }
      var oldest := EntryAt(0);
      return oldest.id;
    }
  }

  // ---------- replay over consecutively numbered events ----------

  /** The hub numbers its broadcasts 1, 2, 3, ... */
  ghost predicate Consecutive(history: seq<Entry>) {
    forall i :: 0 <= i < |history| ==> history[i].id == i + 1
  }

  function Data(s: seq<Entry>): seq<string> {
    seq(|s|, i requires 0 <= i < |s| => s[i].data)
  }

  /** If the entries after the position are those from k on, these are what is found. */
  lemma {:induction false} DataAfterRun(w: seq<Entry>, n: nat, after: nat, k: nat)
    requires n <= |w| && k <= |w| && forall i :: 0 <= i < |w| ==> (w[i].id > after <==> k <= i)
    ensures |DataAfter(w, n, after)| == if n <= k then 0 else n - k
    ensures forall i :: 0 <= i < |DataAfter(w, n, after)| ==> DataAfter(w, n, after)[i] == w[k + i].data
  {
    if n > 0 {
      DataAfterRun(w, n - 1, after, k);
    }
  }

  /**
   * Replay succeeds exactly when the oldest event still held is not newer than `after` and something
   * newer than `after` exists; it then is every broadcast after `after`, in order.
   */
  lemma ReplayIsExact(history: seq<Entry>, size: nat, after: nat)
    requires Consecutive(history)
    ensures var oldest := |history| - Min(|history|, size) + 1;
            && (Since(Window(history, size), after).Some? <==> oldest <= after < |history|)
            && (oldest <= after < |history| ==> Since(Window(history, size), after).value == Data(history[after..]))
  {
    var w := Window(history, size);
    if w != [] && w[0].id <= after {
      DataAfterRun(w, |w|, after, Min(|w|, after + 1 - w[0].id));
      if after < |history| {
        assert DataAfter(w, |w|, after) == Data(history[after..]);
      }
    }
  }

  // ---------- modular arithmetic ----------

  lemma DivisionIsUnique(size: nat, q: int, r: int, q': int, r': int)
    requires 0 <= r < size && 0 <= r' < size && size * q + r == size * q' + r'
    ensures q == q' && r == r'
  {
    assert size * (q - q') == r' - r;
    if q > q' {
      MulAtLeast(size, q - q');
    } else if q < q' {
      assert size * (q' - q) == r - r';
      MulAtLeast(size, q' - q);
    }
  }

  lemma MulAtLeast(size: nat, k: int)
    requires k >= 1
    ensures size * k >= size
  {
  }

  lemma OldestIndex(n: nat, count: nat, size: nat)
    requires 0 < count <= size && count <= n
    ensures (n % size + size - count) % size == (n - count) % size
  {
    ModShift(n, size - count, size);
    ModWhole(n - count, size);
  }

  lemma SlotIndex(n: nat, count: nat, size: nat, i: nat)
    requires 0 < count <= size && count <= n
    ensures ((n % size + size - count) % size + i) % size == (n - count + i) % size
  {
    OldestIndex(n, count, size);
    ModShift(n - count, i, size);
  }

  /** The slot after the last one comes next, and none of the other size - 1 latest entries is in its place. */
  lemma NextSlot(n: nat, size: nat)
    requires size > 0
    ensures (n % size + 1) % size == (n + 1) % size
    ensures forall j :: 0 <= j && n - size < j < n ==> j % size != n % size
  {
    ModShift(n, 1, size);
    forall j | 0 <= j && n - size < j < n ensures j % size != n % size {
      ModApart(j, n, size);
    }
  }

  lemma ModApart(j: nat, n: nat, size: nat)
    requires size > 0 && 0 < n - j < size
    ensures j % size != n % size
  {
    var r := j % size;
    if r + (n - j) < size {
      DivisionIsUnique(size, j / size, r + (n - j), n / size, n % size);
    } else {
      assert n == size * (j / size + 1) + (r + (n - j) - size);
      DivisionIsUnique(size, j / size + 1, r + (n - j) - size, n / size, n % size);
    }
  }

  lemma ModShift(a: nat, b: nat, size: nat)
    requires size > 0
    ensures (a % size + b) % size == (a + b) % size
  {
    var x := a % size + b;
    assert a + b == size * (a / size) + (size * (x / size) + x % size);
    assert a + b == size * (a / size + x / size) + x % size;
    DivisionIsUnique(size, a / size + x / size, x % size, (a + b) / size, (a + b) % size);
  }

  lemma ModWhole(a: nat, size: nat)
    requires size > 0
    ensures (a + size) % size == a % size
  {
    assert a + size == size * (a / size + 1) + a % size;
    DivisionIsUnique(size, a / size + 1, a % size, (a + size) / size, (a + size) % size);
  }
}
