/**
 * `PromptIteratorDynamic.iterate_prompts`: the dynamic node. Each of the
 * inputs `prompt_1` .. `prompt_20` holds one prompt (it is not split into
 * lines); the entry is keyed by `{workflow_id}_dynamic` and also carries the
 * random order and the seeds.
 */
module DynamicNode {
  import opened Text
  import opened Selection
  import opened Seeds
  import opened Naming
  import opened Messages
  import opened Workflow

  /** How many `prompt_k` inputs the node looks at. */
  const PromptSlots: nat := 20

  /** The node's inputs; `kwargs` holds the `prompt_k` inputs that are connected. */
  datatype DynamicArgs = DynamicArgs(mode: Mode, filenameMode: FilenameMode, base: string, suffixes: string,
                                     template: seq<Token>, manualIndex: int, reset: bool, generationSeed: int,
                                     seedMode: SeedMode, workflowId: string, kwargs: map<string, string>)

  /** `f"prompt_{i}"`. */
  function SlotKey(i: nat): string {
    "prompt_" + Decimal(i)
  }

  /** What input `prompt_i` contributes: its stripped value when present and not blank, else nothing. */
  function Slot(kwargs: map<string, string>, i: nat): (r: seq<string>)
    ensures |r| <= 1
    ensures r != [] ==> SlotKey(i) in kwargs && r[0] == Strip(kwargs[SlotKey(i)])
    ensures r == [] <==> SlotKey(i) !in kwargs || AllSpace(kwargs[SlotKey(i)])
  {
    var key := SlotKey(i);
    if key in kwargs && kwargs[key] != [] && Strip(kwargs[key]) != [] then [Strip(kwargs[key])] else []
  }

  /** The prompts collected from `prompt_1` .. `prompt_k`, in slot order. */
  function Gathered(kwargs: map<string, string>, k: nat): (r: seq<string>)
    ensures |r| <= k
    ensures forall j :: 0 <= j < |r| ==> r[j] != [] && Trimmed(r[j])
  {
    if k == 0 then [] else Gathered(kwargs, k - 1) + Slot(kwargs, k)
  }

  /**
   * The collection loop: walk the slots 1..20 and append every non-blank
   * value, stripped.
   */
  method CollectPrompts(kwargs: map<string, string>) returns (prompts: seq<string>)
    ensures prompts == Gathered(kwargs, PromptSlots)
  {
    prompts := [];
    var i := 1;
    while i <= PromptSlots
      invariant 1 <= i <= PromptSlots + 1
      invariant prompts == Gathered(kwargs, i - 1)
    {
      var key := SlotKey(i);
      if key in kwargs && kwargs[key] != [] {
        var value := kwargs[key];
        if Strip(value) != [] {
          prompts := prompts + [Strip(value)];
        }
      }
      i := i + 1;
    }
  }

  /** Distinct slots have distinct input names. */
  lemma SlotKeysDistinct(i: nat, j: nat)
    requires SlotKey(i) == SlotKey(j)
    ensures i == j
  {
    assert Decimal(i) == SlotKey(i)[7..];
    assert Decimal(j) == SlotKey(j)[7..];
    DecimalInjective(i, j);
  }

  /** Nothing is collected exactly when every one of the first `k` slots is missing or blank. */
  lemma {:induction false} GatheredEmpty(kwargs: map<string, string>, k: nat)
    ensures Gathered(kwargs, k) == [] <==>
      forall i :: 1 <= i <= k ==> SlotKey(i) !in kwargs || AllSpace(kwargs[SlotKey(i)])
  {
    if k > 0 {
      GatheredEmpty(kwargs, k - 1);
      var g, last := Gathered(kwargs, k - 1), Slot(kwargs, k);
      assert Gathered(kwargs, k) == g + last;
      assert |g + last| == |g| + |last|;
      if g + last == [] {
        forall i | 1 <= i <= k ensures SlotKey(i) !in kwargs || AllSpace(kwargs[SlotKey(i)]) {
          if i == k {
            assert last == [];
          }
        }
      } else if g == [] {
        assert last != [];
      }
    }
  }

  /**
   * The collection depends on the slots only as `Slot` sees them: two inputs
   * whose slots 1..k contribute the same give the same list, whatever other
   * keys they hold and however a blank slot is spelt.
   */
  lemma {:induction false} GatheredOnlySlots(k1: map<string, string>, k2: map<string, string>, k: nat)
    requires forall i :: 1 <= i <= k ==> Slot(k1, i) == Slot(k2, i)
    ensures Gathered(k1, k) == Gathered(k2, k)
  {
    if k > 0 {
      GatheredOnlySlots(k1, k2, k - 1);
    }
  }

  /** Keys other than `prompt_k`, and missing against blank slots, make no difference. */
  lemma SlotIgnoresOtherKeys(k1: map<string, string>, k2: map<string, string>, i: nat)
    requires SlotKey(i) in k1 <==> SlotKey(i) in k2
    requires SlotKey(i) in k1 ==> k1[SlotKey(i)] == k2[SlotKey(i)]
    ensures Slot(k1, i) == Slot(k2, i)
    ensures Slot(k1, i) == Slot(k1 - {SlotKey(i)}, i) <==> SlotKey(i) !in k1 || AllSpace(k1[SlotKey(i)])
  {
  }

  /**
   * When all of the first `k` slots are filled, prompt `j` is slot `j + 1`,
   * stripped but otherwise whole: a value with several lines is one prompt.
   */
  lemma GatheredDense(kwargs: map<string, string>, k: nat)
    requires forall i :: 1 <= i <= k ==> SlotKey(i) in kwargs && !AllSpace(kwargs[SlotKey(i)])
    ensures |Gathered(kwargs, k)| == k
    ensures forall j :: 0 <= j < k ==> Gathered(kwargs, k)[j] == Strip(kwargs[SlotKey(j + 1)])
  {
    assert forall i :: 1 <= i <= k ==> |Slot(kwargs, i)| == 1;
    GatheredLength(kwargs, k);
    forall j | 0 <= j < k ensures Gathered(kwargs, k)[j] == Strip(kwargs[SlotKey(j + 1)]) {
      GatheredAt(kwargs, k, j);
    }
  }

  lemma {:induction false} GatheredLength(kwargs: map<string, string>, k: nat)
    requires forall i :: 1 <= i <= k ==> |Slot(kwargs, i)| == 1
    ensures |Gathered(kwargs, k)| == k
  {
    if k > 0 {
      GatheredLength(kwargs, k - 1);
    }
  }

  lemma {:induction false} GatheredAt(kwargs: map<string, string>, k: nat, j: nat)
    requires forall i :: 1 <= i <= k ==> |Slot(kwargs, i)| == 1
    requires j < k
    ensures |Gathered(kwargs, k)| == k && |Slot(kwargs, j + 1)| == 1 && Gathered(kwargs, k)[j] == Slot(kwargs, j + 1)[0]
  {
    GatheredLength(kwargs, k);
    var g, last := Gathered(kwargs, k - 1), Slot(kwargs, k);
    assert Gathered(kwargs, k) == g + last;
    if j < k - 1 {
      GatheredAt(kwargs, k - 1, j);
      assert (g + last)[j] == g[j];
    } else {
      assert (g + last)[j] == last[0];
    }
  }

  /** The error tuple for an empty batch: five values, no seed. */
  function DynamicError(base: string): Reply {
    Reply("", base, 0, 0, NoPromptsError, NoSeed)
  }

  /** The entry after lookup-or-create and the optional reset. */
  function DynamicPrepared(entries: map<string, Entry>, a: DynamicArgs, n: nat, draws: RandomDraws): Entry {
    Prepared(entries, DynamicKey(a.workflowId), n, a.generationSeed, a.reset, draws, false)
  }

  /**
   * What the caller's random source must supply: in random mode, a shuffle
   * that is a permutation of the stored order's length.
   */
  predicate DynamicDrawsFit(entries: map<string, Entry>, a: DynamicArgs, n: nat, draws: RandomDraws) {
    a.mode == Random ==> ShuffleFits(DynamicPrepared(entries, a, n, draws), draws.shuffle)
  }

  /** One call of the node on the dictionary `entries`: collect and parse, then `DynamicStep`. */
  function DynamicCall(entries: map<string, Entry>, a: DynamicArgs, draws: RandomDraws): Step
    requires DynamicDrawsFit(entries, a, |Gathered(a.kwargs, PromptSlots)|, draws)
  {
    DynamicStep(entries, a, Gathered(a.kwargs, PromptSlots), ParseOptional(a.suffixes), draws)
  }

  /** The call once the prompt and suffix lists are known. */
  function DynamicStep(entries: map<string, Entry>, a: DynamicArgs, prompts: seq<string>, suffixes: seq<string>,
                       draws: RandomDraws): Step
    requires DynamicDrawsFit(entries, a, |prompts|, draws)
  {
    if prompts == [] then
      Step(Returned(DynamicError(a.base)), entries)
    else
      var n := |prompts|;
      var p := DynamicSelect(DynamicPrepared(entries, a, n, draws), a.mode, a.manualIndex, n, draws.shuffle);
      DynamicFinish(entries, a, prompts, suffixes, draws.seedDraw, p)
  }

  /**
   * The rest of the call once the index is chosen: the prompt lookup, the
   * filename, then the seed policy, each stored under the node's key.
   */
  function DynamicFinish(entries: map<string, Entry>, a: DynamicArgs, prompts: seq<string>, suffixes: seq<string>,
                         draw: int, p: Pick): Step
  {
    var n, key := |prompts|, DynamicKey(a.workflowId);
    if p.Broke? then
      Step(Raised(p.fault), entries[key := p.entry])
    else if p.current >= n then
      Step(Raised(IndexError), entries[key := p.entry])
    else
      match p.entry.currentSeed
      case None => Step(Raised(KeyError("current_seed")), entries[key := p.entry])
      case Some(seed) =>
        var i := p.current;
        var s := DynamicSeed(a.seedMode, seed, i, p.entry.iteration, draw);
        Step(Returned(Reply(prompts[i], DynamicName(a.filenameMode, a.base, suffixes, a.template, i), i, n,
                            DynamicStatus(a.mode, i, n, p.entry.iteration), Seed(s.output))),
             entries[key := p.entry.(currentSeed := Some(s.current))])
  }

  /** The rest of the call writes the node's entry in every case, so an earlier write to it is overwritten. */
  lemma DynamicFinishOverwrites(entries: map<string, Entry>, e: Entry, a: DynamicArgs, prompts: seq<string>,
                                suffixes: seq<string>, draw: int, p: Pick)
    ensures DynamicFinish(entries[DynamicKey(a.workflowId) := e], a, prompts, suffixes, draw, p)
         == DynamicFinish(entries, a, prompts, suffixes, draw, p)
  {
  }

  /**
   * An empty batch returns the five-value error tuple before any entry is
   * created or changed; any other batch returns something else.
   */
  lemma DynamicStepNoPrompts(entries: map<string, Entry>, a: DynamicArgs, prompts: seq<string>,
                             suffixes: seq<string>, draws: RandomDraws)
    requires DynamicDrawsFit(entries, a, |prompts|, draws)
    ensures var s := DynamicStep(entries, a, prompts, suffixes, draws);
      && (prompts == [] <==> s.outcome == Returned(DynamicError(a.base)))
      && (prompts == [] ==> s.entries == entries)
  {
  }

  /** With every prompt slot missing or blank the call is the error tuple, and only then. */
  lemma DynamicNoPrompts(entries: map<string, Entry>, a: DynamicArgs, draws: RandomDraws)
    requires DynamicDrawsFit(entries, a, |Gathered(a.kwargs, PromptSlots)|, draws)
    ensures var s := DynamicCall(entries, a, draws);
      var blank := forall i :: 1 <= i <= PromptSlots ==> SlotKey(i) !in a.kwargs || AllSpace(a.kwargs[SlotKey(i)]);
      && (blank <==> s.outcome == Returned(DynamicError(a.base)))
      && (blank ==> s.entries == entries)
  {
    GatheredEmpty(a.kwargs, PromptSlots);
    DynamicStepNoPrompts(entries, a, Gathered(a.kwargs, PromptSlots), ParseOptional(a.suffixes), draws);
  }

  /** A call writes only `{workflow_id}_dynamic`, which exists afterwards. */
  lemma DynamicIsolation(entries: map<string, Entry>, a: DynamicArgs, prompts: seq<string>, suffixes: seq<string>,
                         draws: RandomDraws)
    requires DynamicDrawsFit(entries, a, |prompts|, draws)
    ensures var s, key := DynamicStep(entries, a, prompts, suffixes, draws), DynamicKey(a.workflowId);
      && (forall k :: k != key ==> (k in s.entries <==> k in entries))
      && (forall k :: k != key && k in entries ==> s.entries[k] == entries[k])
      && (prompts != [] ==> key in s.entries)
  {
  }

  /**
   * A call reads only `{workflow_id}_dynamic`: on two dictionaries that agree
   * there, it has the same outcome and leaves the same entry there.
   */
  lemma DynamicReadsOwn(m1: map<string, Entry>, m2: map<string, Entry>, a: DynamicArgs, prompts: seq<string>,
                        suffixes: seq<string>, draws: RandomDraws)
    requires SameAt(m1, m2, DynamicKey(a.workflowId))
    requires DynamicDrawsFit(m1, a, |prompts|, draws) && DynamicDrawsFit(m2, a, |prompts|, draws)
    ensures var s1, s2 := DynamicStep(m1, a, prompts, suffixes, draws), DynamicStep(m2, a, prompts, suffixes, draws);
      s1.outcome == s2.outcome && SameAt(s1.entries, s2.entries, DynamicKey(a.workflowId))
  {
  }

  /**
   * The entry this call starts from is ready for the batch: new, reset, or
   * left ready by an earlier call with the same number of prompts.
   */
  predicate DynamicStartsReady(entries: map<string, Entry>, a: DynamicArgs, n: nat) {
    var key := DynamicKey(a.workflowId);
    key !in entries || a.reset || SeededReady(entries[key], n, false)
  }

  /**
   * With a ready starting entry and a fitting random source, a call returns
   * normally, with an index below the count and a seed in [0, 2^31 - 1], and
   * leaves the entry ready for the next call with the same batch.
   */
  lemma DynamicNeverFails(entries: map<string, Entry>, a: DynamicArgs, prompts: seq<string>, suffixes: seq<string>,
                          draws: RandomDraws)
    requires prompts != [] && EntriesValid(entries) && DrawsInRange(draws) && a.generationSeed <= MaxSeed
    requires DynamicStartsReady(entries, a, |prompts|)
    requires a.mode == Random ==> IsPermutation(draws.shuffle, |prompts|)
    ensures DynamicDrawsFit(entries, a, |prompts|, draws)
    ensures var s, key := DynamicStep(entries, a, prompts, suffixes, draws), DynamicKey(a.workflowId);
      && s.outcome.Returned?
      && s.outcome.reply.currentIndex < |prompts|
      && s.outcome.reply.seed.Seed? && InSeedRange(s.outcome.reply.seed.value)
      && key in s.entries && SeededReady(s.entries[key], |prompts|, false)
  {
    var n, key := |prompts|, DynamicKey(a.workflowId);
    var e := DynamicPrepared(entries, a, n, draws);
    PreparedReady(entries, key, n, a.generationSeed, a.reset, draws, false);
    DynamicSelectReady(e, a.mode, a.manualIndex, n, draws.shuffle);
    var p := DynamicSelect(e, a.mode, a.manualIndex, n, draws.shuffle);
    SeedPolicy(a.seedMode, p.entry.currentSeed.value, p.current, p.entry.iteration, draws.seedDraw);
  }

  /**
   * How a call moves the cursor and which index it uses, from the prepared
   * entry: `manual` uses the clamped request and `single` index 0, both
   * leaving the cursor alone; `random` shuffles the order, uses the element of
   * the shuffled order at the stored index and advances; the other modes use
   * the stored index and advance. Only `random` changes the order, and
   * `direction` and `base_seed` are never touched.
   */
  lemma DynamicSelection(entries: map<string, Entry>, a: DynamicArgs, prompts: seq<string>, suffixes: seq<string>,
                         draws: RandomDraws)
    requires prompts != [] && DynamicDrawsFit(entries, a, |prompts|, draws)
    requires DynamicStep(entries, a, prompts, suffixes, draws).outcome.Returned?
    ensures var s, n := DynamicStep(entries, a, prompts, suffixes, draws), |prompts|;
      var start, after, i := DynamicPrepared(entries, a, n, draws), s.entries[DynamicKey(a.workflowId)],
                             s.outcome.reply.currentIndex;
      && (a.mode == Manual ==> i == Clamp(a.manualIndex, n) && CursorOf(after) == CursorOf(start))
      && (a.mode == Single ==> i == 0 && CursorOf(after) == CursorOf(start))
      && (a.mode == Random ==>
            && after.randomOrder == Some(Shuffle(start.randomOrder.value, draws.shuffle))
            && i == after.randomOrder.value[start.index]
            && CursorOf(after) == LoopNext(CursorOf(start), n))
      && (a.mode == Sequential || a.mode == Unlisted ==> i == start.index && CursorOf(after) == LoopNext(CursorOf(start), n))
      && (a.mode != Random ==> after.randomOrder == start.randomOrder)
      && after.direction == start.direction && after.baseSeed == start.baseSeed
  {
  }

  /**
   * What a normal return carries: the prompt at the index used, the filename
   * rule of the node, a status built from the iteration count after the
   * advance, and the seed policy's output; the policy's new seed is stored.
   */
  lemma DynamicReply(entries: map<string, Entry>, a: DynamicArgs, prompts: seq<string>, suffixes: seq<string>,
                     draws: RandomDraws)
    requires prompts != [] && DynamicDrawsFit(entries, a, |prompts|, draws)
    requires DynamicStep(entries, a, prompts, suffixes, draws).outcome.Returned?
    ensures var s, n := DynamicStep(entries, a, prompts, suffixes, draws), |prompts|;
      var p := DynamicSelect(DynamicPrepared(entries, a, n, draws), a.mode, a.manualIndex, n, draws.shuffle);
      var after, r := s.entries[DynamicKey(a.workflowId)], s.outcome.reply;
      && p.Picked? && p.entry.currentSeed.Some?
      && r.currentIndex < n && r.totalCount == n
      && r.prompt == prompts[r.currentIndex]
      && r.filename == DynamicName(a.filenameMode, a.base, suffixes, a.template, r.currentIndex)
      && r.status == DynamicStatus(a.mode, r.currentIndex, n, after.iteration)
      && var so := DynamicSeed(a.seedMode, p.entry.currentSeed.value, r.currentIndex, after.iteration, draws.seedDraw);
         r.seed == Seed(so.output) && after == p.entry.(currentSeed := Some(so.current))
  {
  }

  /**
   * Faults keep what was done before them, as Python's in-place updates do:
   * a missing `random_order` raises before anything but creation and reset, a
   * stored index past the order's end raises after the shuffle, and a stale
   * order element raises after the advance.
   */
  lemma DynamicFaults(entries: map<string, Entry>, a: DynamicArgs, prompts: seq<string>, suffixes: seq<string>,
                      draws: RandomDraws)
    requires prompts != [] && DynamicDrawsFit(entries, a, |prompts|, draws)
    ensures var s, n := DynamicStep(entries, a, prompts, suffixes, draws), |prompts|;
      var start, key := DynamicPrepared(entries, a, n, draws), DynamicKey(a.workflowId);
      && (a.mode == Random && start.randomOrder.None? ==>
            s.outcome == Raised(KeyError("random_order")) && s.entries == entries[key := start])
      && (a.mode == Random && start.randomOrder.Some? && start.index >= |start.randomOrder.value| ==>
            s.outcome == Raised(IndexError)
            && s.entries == entries[key := start.(randomOrder := Some(Shuffle(start.randomOrder.value, draws.shuffle)))])
      && (a.mode == Random && start.randomOrder.Some? && start.index < |start.randomOrder.value| ==>
            var e1 := start.(randomOrder := Some(Shuffle(start.randomOrder.value, draws.shuffle)));
            e1.randomOrder.value[start.index] >= n ==>
              s.outcome == Raised(IndexError) && s.entries == entries[key := WithCursor(e1, LoopNext(CursorOf(e1), n))])
      && ((a.mode == Sequential || a.mode == Unlisted) && start.index >= n ==>
            s.outcome == Raised(IndexError) && s.entries == entries[key := WithCursor(start, LoopNext(CursorOf(start), n))])
  {
  }

  /** Calls never invalidate the dictionary. */
  lemma DynamicKeepsValid(entries: map<string, Entry>, a: DynamicArgs, prompts: seq<string>, suffixes: seq<string>,
                          draws: RandomDraws)
    requires EntriesValid(entries) && DrawsInRange(draws) && a.generationSeed <= MaxSeed
    requires DynamicDrawsFit(entries, a, |prompts|, draws)
    ensures EntriesValid(DynamicStep(entries, a, prompts, suffixes, draws).entries)
  {
    if prompts != [] {
      var n, key := |prompts|, DynamicKey(a.workflowId);
      var e := DynamicPrepared(entries, a, n, draws);
      PreparedReady(entries, key, n, a.generationSeed, a.reset, draws, false);
      AdvancedSelectValid(e, a.mode, Loop, a.manualIndex, n, draws.shuffle);
      var p := DynamicSelect(e, a.mode, a.manualIndex, n, draws.shuffle);
      if p.Picked? && p.current < n && p.entry.currentSeed.Some? {
        SeedPolicy(a.seedMode, p.entry.currentSeed.value, p.current, p.entry.iteration, draws.seedDraw);
      }
    }
  }

  /**
   * The conditions of the walk lemmas below: repeated sequential calls with
   * the same batch, starting from a workflow id that has no entry yet.
   */
  predicate DynamicRepeatedFromNew(entries: map<string, Entry>, a: DynamicArgs, prompts: seq<string>,
                                   draws: RandomDraws) {
    && prompts != [] && a.mode == Sequential && !a.reset && DynamicKey(a.workflowId) !in entries
    && EntriesValid(entries) && DrawsInRange(draws) && a.generationSeed <= MaxSeed
  }

  /** The dictionary after `k` identical calls in a mode without shuffling. */
  function DynamicRepeat(entries: map<string, Entry>, a: DynamicArgs, prompts: seq<string>, suffixes: seq<string>,
                         draws: RandomDraws, k: nat): map<string, Entry>
    requires a.mode != Random
  {
    if k == 0 then entries
    else DynamicStep(DynamicRepeat(entries, a, prompts, suffixes, draws, k - 1), a, prompts, suffixes, draws).entries
  }

  /** A call without shuffling from a valid dictionary and a ready entry leaves both so. */
  lemma DynamicStepReady(m: map<string, Entry>, a: DynamicArgs, prompts: seq<string>, suffixes: seq<string>,
                         draws: RandomDraws)
    requires prompts != [] && a.mode != Random
    requires EntriesValid(m) && DrawsInRange(draws) && a.generationSeed <= MaxSeed
    requires DynamicStartsReady(m, a, |prompts|)
    ensures var s := DynamicStep(m, a, prompts, suffixes, draws).entries;
      && EntriesValid(s)
      && DynamicStartsReady(s, a, |prompts|)
  {
    DynamicKeepsValid(m, a, prompts, suffixes, draws);
    DynamicNeverFails(m, a, prompts, suffixes, draws);
  }

  /** Repeated calls keep the dictionary valid and the entry ready. */
  lemma {:induction false} DynamicRepeatReady(entries: map<string, Entry>, a: DynamicArgs, prompts: seq<string>,
                                              suffixes: seq<string>, draws: RandomDraws, k: nat)
    requires DynamicRepeatedFromNew(entries, a, prompts, draws)
    ensures var m := DynamicRepeat(entries, a, prompts, suffixes, draws, k);
      && EntriesValid(m)
      && DynamicStartsReady(m, a, |prompts|)
  {
    if k == 0 {
      assert DynamicRepeat(entries, a, prompts, suffixes, draws, k) == entries;
    } else {
      DynamicRepeatReady(entries, a, prompts, suffixes, draws, k - 1);
      DynamicStepReady(DynamicRepeat(entries, a, prompts, suffixes, draws, k - 1), a, prompts, suffixes, draws);
    }
  }

  /**
   * One repeated sequential call moves the cursor one loop step, and under
   * `increment_batch` it moves (cursor, stored seed) one `Seeds.BatchNext` step.
   */
  lemma DynamicBatchStep(m: map<string, Entry>, a: DynamicArgs, prompts: seq<string>, suffixes: seq<string>,
                         draws: RandomDraws)
    requires prompts != [] && a.mode == Sequential && !a.reset && a.generationSeed >= 0
    requires EntriesValid(m) && DrawsInRange(draws) && a.generationSeed <= MaxSeed
    requires DynamicStartsReady(m, a, |prompts|)
    ensures var s, key := DynamicStep(m, a, prompts, suffixes, draws), DynamicKey(a.workflowId);
      var start := StartBatch(m, key, a.generationSeed);
      && key in s.entries && s.entries[key].currentSeed.Some?
      && StartBatch(s.entries, key, a.generationSeed).0 == LoopNext(start.0, |prompts|)
      && (a.seedMode == IncrementBatch ==>
            StartBatch(s.entries, key, a.generationSeed) == BatchNext(start.0, start.1, |prompts|))
  {
    var n, key := |prompts|, DynamicKey(a.workflowId);
    PreparedDefaults(m, key, n, a.generationSeed, a.reset, draws, false);
    DynamicNeverFails(m, a, prompts, suffixes, draws);
    DynamicSelection(m, a, prompts, suffixes, draws);
    DynamicReply(m, a, prompts, suffixes, draws);
  }

  /**
   * Sequential calls from a new workflow id and a given seed: after `k` calls
   * the cursor is `k` loop steps from (0, 0), and under `increment_batch` the
   * cursor and stored seed are those of `Seeds.BatchRun`, so (by
   * `Seeds.BatchRunFromStart`) the seed goes up once at the start of every
   * pass after the first.
   */
  lemma {:induction false} DynamicBatchRun(entries: map<string, Entry>, a: DynamicArgs, prompts: seq<string>,
                                           suffixes: seq<string>, draws: RandomDraws, k: nat)
    requires DynamicRepeatedFromNew(entries, a, prompts, draws) && a.generationSeed >= 0
    ensures var start := StartBatch(DynamicRepeat(entries, a, prompts, suffixes, draws, k), DynamicKey(a.workflowId),
                                    a.generationSeed);
      && start.0 == LoopRun(Cursor(0, 0), |prompts|, k)
      && (a.seedMode == IncrementBatch ==> start == BatchRun(Cursor(0, 0), a.generationSeed, |prompts|, k))
  {
    if k >= 1 {
      DynamicBatchRun(entries, a, prompts, suffixes, draws, k - 1);
      DynamicRepeatReady(entries, a, prompts, suffixes, draws, k - 1);
      var m := DynamicRepeat(entries, a, prompts, suffixes, draws, k - 1);
      DynamicBatchStep(m, a, prompts, suffixes, draws);
    }
  }

  /**
   * Sequential mode from a new workflow id: the call numbered `k` (from 0)
   * returns prompt `k mod n`, so the batch is walked 0, 1, ..., n-1, 0, 1, ...;
   * under `increment_batch` it outputs the seed `Seeds.BatchRun` stores after
   * `k + 1` calls.
   */
  lemma DynamicSequentialWalk(entries: map<string, Entry>, a: DynamicArgs, prompts: seq<string>, suffixes: seq<string>,
                              draws: RandomDraws, k: nat)
    requires DynamicRepeatedFromNew(entries, a, prompts, draws) && a.generationSeed >= 0
    ensures var n, s := |prompts|, DynamicStep(DynamicRepeat(entries, a, prompts, suffixes, draws, k), a, prompts,
                                               suffixes, draws);
      && s.outcome.Returned?
      && s.outcome.reply.currentIndex == k % n
      && s.outcome.reply.prompt == prompts[k % n]
      && (a.seedMode == IncrementBatch ==>
            s.outcome.reply.seed == Seed(BatchRun(Cursor(0, 0), a.generationSeed, n, k + 1).1))
  {
    var n, key := |prompts|, DynamicKey(a.workflowId);
    var m := DynamicRepeat(entries, a, prompts, suffixes, draws, k);
    DynamicBatchRun(entries, a, prompts, suffixes, draws, k);
    DynamicBatchRun(entries, a, prompts, suffixes, draws, k + 1);
    DynamicRepeatReady(entries, a, prompts, suffixes, draws, k);
    LoopRunFromStart(0, n, k);
    PreparedDefaults(m, key, n, a.generationSeed, a.reset, draws, false);
    DynamicNeverFails(m, a, prompts, suffixes, draws);
    DynamicSelection(m, a, prompts, suffixes, draws);
    DynamicReply(m, a, prompts, suffixes, draws);
  }

  /**
   * `increment_batch` over three prompts from a new id: call `k` (from 0) reads
   * prompt `k mod 3` and outputs the seed plus `k div 3`. From seed 1000 the
   * first nine calls give 1000 three times, then 1001 and 1002 three times each.
   */
  lemma DynamicBatchThreePrompts(entries: map<string, Entry>, a: DynamicArgs, prompts: seq<string>,
                                 suffixes: seq<string>, draws: RandomDraws, k: nat)
    requires DynamicRepeatedFromNew(entries, a, prompts, draws) && |prompts| == 3
    requires a.seedMode == IncrementBatch && a.generationSeed >= 0 && a.generationSeed + k / 3 <= MaxSeed
    ensures var s := DynamicStep(DynamicRepeat(entries, a, prompts, suffixes, draws, k), a, prompts, suffixes, draws);
      && s.outcome.Returned?
      && s.outcome.reply.currentIndex == k % 3
      && s.outcome.reply.seed == Seed(a.generationSeed + k / 3)
  {
    assert BatchRun(Cursor(0, 0), a.generationSeed, 3, k + 1).1 == a.generationSeed + k / 3 by {
      BatchSeedOfCall(a.generationSeed, 3, k);
      ModSmall(a.generationSeed + k / 3, SeedModulus);
    }
    DynamicSequentialWalk(entries, a, prompts, suffixes, draws, k);
  }
}
