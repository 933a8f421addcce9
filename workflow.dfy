/**
 * The state the three nodes keep in the process-wide `ITERATOR_STATE`
 * dictionary, and the steps of a call that more than one node shares:
 * creating or resetting an entry and selecting the index to use.
 *
 * A dictionary entry is an `Entry`. The basic node creates entries with only
 * `index` and `iteration`; the other two add `random_order`, `base_seed` and
 * `current_seed`, and the advanced node also `direction`. Because the basic
 * node keys its entry by the bare workflow id, it can share an entry with the
 * dynamic node (id `x_dynamic` against `x`) or the advanced node (`x_advanced`
 * against `x`), so those fields are optional here and a missing one is a
 * `KeyError`, as in Python.
 */
module Workflow {
  import opened Selection
  import opened Seeds

  datatype Option<T> = None | Some(value: T)

  datatype Entry = Entry(
    index: nat,
    iteration: nat,
    direction: Option<int>,
    randomOrder: Option<seq<nat>>,
    baseSeed: Option<int>,
    currentSeed: Option<int>)

  /** The exceptions a call can end in: a missing dictionary key, or a list index out of range. */
  datatype Fault = KeyError(field: string) | IndexError

  /**
   * The last slot of a reply: absent (the basic node, and the dynamic node's
   * error tuple), a seed, or the empty string of the advanced node's error tuple.
   */
  datatype SeedSlot = NoSeed | Seed(value: int) | BlankSeed

  /** `(prompt, filename, current_index, total_count, status[, seed])`. */
  datatype Reply = Reply(prompt: string, filename: string, currentIndex: nat, totalCount: nat,
                         status: string, seed: SeedSlot)

  datatype Outcome = Returned(reply: Reply) | Raised(fault: Fault)

  /** What a call returns or raises, and the dictionary it leaves behind. */
  datatype Step = Step(outcome: Outcome, entries: map<string, Entry>)

  /**
   * The values Python's `random` module would produce during one call: the two
   * `randint` draws made when an entry is created with a negative
   * `generation_seed`, the one made by a reset, the one made by the `random`
   * seed mode, and the permutation `random.shuffle` applies.
   */
  datatype RandomDraws = RandomDraws(createBase: int, createCurrent: int, resetBase: int,
                                     seedDraw: int, shuffle: seq<nat>)

  predicate DrawsInRange(d: RandomDraws) {
    InSeedRange(d.createBase) && InSeedRange(d.createCurrent) && InSeedRange(d.resetBase) && InSeedRange(d.seedDraw)
  }

  /** What every entry satisfies whatever the sequence of calls: see the `KeepsValid` lemmas. */
  predicate EntryValid(e: Entry) {
    && (e.direction.Some? ==> e.direction.value == 1 || e.direction.value == -1)
    && (e.randomOrder.Some? ==> IsPermutation(e.randomOrder.value, |e.randomOrder.value|))
    && (e.baseSeed.Some? ==> InSeedRange(e.baseSeed.value))
    && (e.currentSeed.Some? ==> InSeedRange(e.currentSeed.value))
  }

  predicate EntriesValid(entries: map<string, Entry>) {
    forall key :: key in entries ==> EntryValid(entries[key])
  }

  /** The two dictionaries agree at `key`: both lack it, or both hold the same entry. */
  predicate SameAt(m1: map<string, Entry>, m2: map<string, Entry>, key: string) {
    && (key in m1 <==> key in m2)
    && (key in m1 ==> m1[key] == m2[key])
  }

  /**
   * An entry of the dynamic (or, with `direction`, the advanced) node that is
   * consistent with a batch of `n` prompts: what creating or resetting it with
   * that batch establishes, and what a call with the same batch preserves.
   */
  predicate SeededReady(e: Entry, n: nat, withDirection: bool) {
    && e.index < n
    && e.randomOrder.Some? && IsPermutation(e.randomOrder.value, n)
    && e.currentSeed.Some? && InSeedRange(e.currentSeed.value)
    && (withDirection ==> e.direction.Some? && (e.direction.value == 1 || e.direction.value == -1))
  }

  const DynamicSuffix: string := "_dynamic"
  const AdvancedSuffix: string := "_advanced"

  /** `f"{workflow_id}_dynamic"`. */
  function DynamicKey(id: string): string {
    id + DynamicSuffix
  }

  /** `f"{workflow_id}_advanced"`. */
  function AdvancedKey(id: string): string {
    id + AdvancedSuffix
  }

  /**
   * The dynamic and advanced nodes never share an entry. Only the basic node,
   * which uses the bare id, can collide with another node's key.
   */
  lemma KeysNeverCollide(id1: string, id2: string)
    ensures DynamicKey(id1) != AdvancedKey(id2)
    ensures DynamicKey(id1) == DynamicKey(id2) <==> id1 == id2
    ensures AdvancedKey(id1) == AdvancedKey(id2) <==> id1 == id2
  {
    var d, a := DynamicKey(id1), AdvancedKey(id2);
    if |d| >= 2 && |a| >= 2 {
      assert d[|d| - 2] == 'i' && a[|a| - 2] == 'e';
    }
    if DynamicKey(id1) == DynamicKey(id2) {
      assert id1 == DynamicKey(id1)[..|id1|] && id2 == DynamicKey(id2)[..|id2|];
    }
    if AdvancedKey(id1) == AdvancedKey(id2) {
      assert id1 == AdvancedKey(id1)[..|id1|] && id2 == AdvancedKey(id2)[..|id2|];
    }
  }

  function CursorOf(e: Entry): Cursor {
    Cursor(e.index, e.iteration)
  }

  function WithCursor(e: Entry, c: Cursor): Entry {
    e.(index := c.index, iteration := c.iteration)
  }

  /** The cursor and seed a batch call starts from: the stored ones, or (0, 0) and `seed` for a new entry. */
  function StartBatch(m: map<string, Entry>, key: string, seed: int): (Cursor, int) {
    if key in m && m[key].currentSeed.Some? then (CursorOf(m[key]), m[key].currentSeed.value) else (Cursor(0, 0), seed)
  }

  /** The entry at `key`, or the one a call would create there. */
  function Lookup(entries: map<string, Entry>, key: string, created: Entry): Entry {
    if key in entries then entries[key] else created
  }

  /** `{"index": 0, "iteration": 0}`, the basic node's new entry. */
  function BasicFresh(): Entry {
    Entry(0, 0, None, None, None, None)
  }

  /** The entry the dynamic node or (`withDirection`) the advanced node creates for `n` prompts. */
  function SeededFresh(n: nat, generationSeed: int, draws: RandomDraws, withDirection: bool): Entry {
    Entry(0, 0, if withDirection then Some(1) else None, Some(Identity(n)),
          Some(InitialSeed(generationSeed, draws.createBase)), Some(InitialSeed(generationSeed, draws.createCurrent)))
  }

  /**
   * A reset: cursor to 0, `random_order` to `list(range(n))`, one seed value
   * for both `base_seed` and `current_seed`; the advanced node also sets
   * `direction` to 1. Fields the reset does not set are kept.
   */
  function SeededReset(e: Entry, n: nat, generationSeed: int, draws: RandomDraws, withDirection: bool): Entry {
    var s := InitialSeed(generationSeed, draws.resetBase);
    e.(index := 0, iteration := 0, direction := if withDirection then Some(1) else e.direction,
       randomOrder := Some(Identity(n)), baseSeed := Some(s), currentSeed := Some(s))
  }

  /** The entry after lookup-or-create and the optional reset. */
  function Prepared(entries: map<string, Entry>, key: string, n: nat, generationSeed: int, reset: bool,
                    draws: RandomDraws, withDirection: bool): Entry {
    var e := Lookup(entries, key, SeededFresh(n, generationSeed, draws, withDirection));
    if reset then SeededReset(e, n, generationSeed, draws, withDirection) else e
  }

  /**
   * What creation and reset promise: a new entry and a reset entry both start
   * at index 0, iteration 0 (direction 1 in the advanced node) with the
   * identity order of the current batch. A non-negative `generation_seed` is
   * used for both seeds; otherwise creation draws the two seeds independently,
   * while a reset draws one and uses it for both. An existing entry without a
   * reset is used as it is.
   */
  lemma PreparedDefaults(entries: map<string, Entry>, key: string, n: nat, generationSeed: int, reset: bool,
                         draws: RandomDraws, withDirection: bool)
    ensures var e := Prepared(entries, key, n, generationSeed, reset, draws, withDirection);
      && (key in entries && !reset ==> e == entries[key])
      && (key !in entries || reset ==>
            && CursorOf(e) == Cursor(0, 0)
            && e.randomOrder == Some(Identity(n))
            && (withDirection ==> e.direction == Some(1))
            && (generationSeed >= 0 ==> e.baseSeed == e.currentSeed == Some(generationSeed)))
      && (reset && generationSeed < 0 ==> e.baseSeed == e.currentSeed == Some(draws.resetBase))
      && (!reset && key !in entries && generationSeed < 0 ==>
            e.baseSeed == Some(draws.createBase) && e.currentSeed == Some(draws.createCurrent))
      && (reset && !withDirection && key in entries ==> e.direction == entries[key].direction)
  {
  }

  /**
   * The seeded entry is valid, and ready for a batch of `n` prompts when it is
   * new or reset, or was ready before.
   */
  lemma PreparedReady(entries: map<string, Entry>, key: string, n: nat, generationSeed: int, reset: bool,
                      draws: RandomDraws, withDirection: bool)
    requires EntriesValid(entries) && DrawsInRange(draws) && generationSeed <= MaxSeed
    ensures EntryValid(Prepared(entries, key, n, generationSeed, reset, draws, withDirection))
    ensures n >= 1 && (key !in entries || reset || SeededReady(entries[key], n, withDirection)) ==>
      SeededReady(Prepared(entries, key, n, generationSeed, reset, draws, withDirection), n, withDirection)
  {
  }

  /** The index chosen by a call and the entry as the selection leaves it, or the fault it ran into. */
  datatype Pick = Picked(current: nat, entry: Entry) | Broke(fault: Fault, entry: Entry)

  /** Sequential (and `loop`): read the index, then advance with wrap-around. */
  function LoopPick(e: Entry, n: nat): Pick
    requires n >= 1
  {
    Picked(e.index, WithCursor(e, LoopNext(CursorOf(e), n)))
  }

  predicate ShuffleFits(e: Entry, perm: seq<nat>) {
    e.randomOrder.Some? ==> IsPermutation(perm, |e.randomOrder.value|)
  }

  /**
   * Random mode: shuffle `random_order` in place, read it at `index`, then
   * advance `index` as the sequential mode does.
   */
  function RandomPick(e: Entry, n: nat, perm: seq<nat>): Pick
    requires n >= 1 && ShuffleFits(e, perm)
  {
    match e.randomOrder
    case None => Broke(KeyError("random_order"), e)
    case Some(order) =>
      var shuffled := Shuffle(order, perm);
      var e1 := e.(randomOrder := Some(shuffled));
      if e.index < |shuffled| then Picked(shuffled[e.index], WithCursor(e1, LoopNext(CursorOf(e1), n)))
      else Broke(IndexError, e1)
  }

  /** The index selection of the dynamic node. */
  function DynamicSelect(e: Entry, mode: Mode, manualIndex: int, n: nat, perm: seq<nat>): Pick
    requires n >= 1 && (mode == Random ==> ShuffleFits(e, perm))
  {
    if mode == Manual then Picked(Clamp(manualIndex, n), e)
    else if mode == Single then Picked(0, e)
    else if mode == Random then RandomPick(e, n, perm)
    else LoopPick(e, n)
  }

  /** The sequential branch of the advanced node, by `loop_mode`. */
  function SequentialPick(e: Entry, loop: LoopMode, n: nat): Pick
    requires n >= 1
  {
    match loop
    case Once => Picked(e.index, WithCursor(e, OnceNext(CursorOf(e), n)))
    case Loop => LoopPick(e, n)
    case PingPong =>
      match e.direction
      case None => Broke(KeyError("direction"), e)
      case Some(d) =>
        var s := PingPongNext(Swing(e.index, e.iteration, d), n);
        Picked(e.index, e.(index := s.index, iteration := s.iteration, direction := Some(s.direction)))
  }

  /** The index selection of the advanced node. */
  function AdvancedSelect(e: Entry, mode: Mode, loop: LoopMode, manualIndex: int, n: nat, perm: seq<nat>): Pick
    requires n >= 1 && (mode == Random ==> ShuffleFits(e, perm))
  {
    if mode == Manual then Picked(Clamp(manualIndex, n), e)
    else if mode == Single then Picked(0, e)
    else if mode == Random then RandomPick(e, n, perm)
    else SequentialPick(e, loop, n)
  }

  /** The dynamic node selects as the advanced node does with `loop_mode` `loop`. */
  lemma DynamicSelectIsLoop(e: Entry, mode: Mode, manualIndex: int, n: nat, perm: seq<nat>)
    requires n >= 1 && (mode == Random ==> ShuffleFits(e, perm))
    ensures DynamicSelect(e, mode, manualIndex, n, perm) == AdvancedSelect(e, mode, Loop, manualIndex, n, perm)
  {
  }

  /**
   * On a ready entry the random selection cannot fail: it returns the element
   * of the shuffled order at the stored index, the shuffled order is again a
   * permutation of 0..n-1, and the cursor advances as in sequential mode.
   */
  lemma RandomPickReady(e: Entry, n: nat, perm: seq<nat>, withDirection: bool)
    requires n >= 1 && SeededReady(e, n, withDirection) && IsPermutation(perm, n)
    ensures var p := RandomPick(e, n, perm);
      && p.Picked?
      && p.entry.randomOrder == Some(Shuffle(e.randomOrder.value, perm))
      && p.current == p.entry.randomOrder.value[e.index]
      && p.current < n
      && CursorOf(p.entry) == LoopNext(CursorOf(e), n)
      && p.entry.currentSeed == e.currentSeed && p.entry.direction == e.direction
      && SeededReady(p.entry, n, withDirection)
  {
  }

  /**
   * On a ready entry no selection of the advanced node fails: the index is
   * below the count, the seed is untouched and the entry stays ready.
   */
  lemma AdvancedSelectReady(e: Entry, mode: Mode, loop: LoopMode, manualIndex: int, n: nat, perm: seq<nat>)
    requires n >= 1 && SeededReady(e, n, true) && (mode == Random ==> IsPermutation(perm, n))
    ensures var p := AdvancedSelect(e, mode, loop, manualIndex, n, perm);
      p.Picked? && p.current < n && p.entry.currentSeed == e.currentSeed && SeededReady(p.entry, n, true)
  {
    if mode == Random {
      RandomPickReady(e, n, perm, true);
    }
  }

  /** The same for the dynamic node. */
  lemma DynamicSelectReady(e: Entry, mode: Mode, manualIndex: int, n: nat, perm: seq<nat>)
    requires n >= 1 && SeededReady(e, n, false) && (mode == Random ==> IsPermutation(perm, n))
    ensures var p := DynamicSelect(e, mode, manualIndex, n, perm);
      p.Picked? && p.current < n && p.entry.currentSeed == e.currentSeed && SeededReady(p.entry, n, false)
  {
    if mode == Random {
      RandomPickReady(e, n, perm, false);
    }
  }

  /** Every selection on a valid entry leaves a valid entry. */
  lemma AdvancedSelectValid(e: Entry, mode: Mode, loop: LoopMode, manualIndex: int, n: nat, perm: seq<nat>)
    requires n >= 1 && (mode == Random ==> ShuffleFits(e, perm)) && EntryValid(e)
    ensures EntryValid(AdvancedSelect(e, mode, loop, manualIndex, n, perm).entry)
    ensures EntryValid(DynamicSelect(e, mode, manualIndex, n, perm).entry)
  {
  }
}
