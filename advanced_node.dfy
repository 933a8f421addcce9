/**
 * `PromptIteratorAdvanced.iterate_prompt_advanced`: the advanced node. Prompts,
 * filenames and suffixes are newline-separated text; the entry is keyed by
 * `{workflow_id}_advanced` and carries `direction` for ping-pong besides the
 * random order and the seeds. The prompt is wrapped in prepend/append text,
 * and the sequential mode follows `loop_mode`.
 */
module AdvancedNode {
  import opened Text
  import opened Selection
  import opened Seeds
  import opened Naming
  import opened Messages
  import opened Workflow

  /** The node's inputs. */
  datatype AdvancedArgs = AdvancedArgs(prompts: string, mode: Mode, filenameMode: FilenameMode, base: string,
                                       filenames: string, suffixes: string, template: seq<Token>,
                                       prepend: string, append: string, manualIndex: int, loop: LoopMode,
                                       reset: bool, generationSeed: int, seedMode: SeedMode, workflowId: string)

  /** The error tuple for an empty batch: six values, the empty string in the seed slot. */
  function AdvancedError(base: string): Reply {
    Reply("", base, 0, 0, NoPromptsError, BlankSeed)
  }

  /** The entry after lookup-or-create and the optional reset. */
  function AdvancedPrepared(entries: map<string, Entry>, a: AdvancedArgs, n: nat, draws: RandomDraws): Entry {
    Prepared(entries, AdvancedKey(a.workflowId), n, a.generationSeed, a.reset, draws, true)
  }

  /** In random mode the caller's shuffle must be a permutation of the stored order's length. */
  predicate AdvancedDrawsFit(entries: map<string, Entry>, a: AdvancedArgs, n: nat, draws: RandomDraws) {
    a.mode == Random ==> ShuffleFits(AdvancedPrepared(entries, a, n, draws), draws.shuffle)
  }

  /** One call of the node on the dictionary `entries`: parse, then `AdvancedStep`. */
  function AdvancedCall(entries: map<string, Entry>, a: AdvancedArgs, draws: RandomDraws): Step
    requires AdvancedDrawsFit(entries, a, |ParseLines(a.prompts)|, draws)
  {
    AdvancedStep(entries, a, ParseLines(a.prompts), ParseOptional(a.filenames), ParseOptional(a.suffixes), draws)
  }

  /** The call once the prompt, filename and suffix lists are parsed. */
  function AdvancedStep(entries: map<string, Entry>, a: AdvancedArgs, prompts: seq<string>, files: seq<string>,
                        suffixes: seq<string>, draws: RandomDraws): Step
    requires AdvancedDrawsFit(entries, a, |prompts|, draws)
  {
    if prompts == [] then
      Step(Returned(AdvancedError(a.base)), entries)
    else
      var n := |prompts|;
      var p := AdvancedSelect(AdvancedPrepared(entries, a, n, draws), a.mode, a.loop, a.manualIndex, n, draws.shuffle);
      AdvancedFinish(entries, a, prompts, files, suffixes, draws.seedDraw, p)
  }

  /**
   * The rest of the call once the index is chosen: the prompt lookup, the
   * reply text, then the seed policy, each stored under the node's key.
   */
  function AdvancedFinish(entries: map<string, Entry>, a: AdvancedArgs, prompts: seq<string>, files: seq<string>,
                          suffixes: seq<string>, draw: int, p: Pick): Step
  {
    var n, key := |prompts|, AdvancedKey(a.workflowId);
    if p.Broke? then
      Step(Raised(p.fault), entries[key := p.entry])
    else if p.current >= n then
      Step(Raised(IndexError), entries[key := p.entry])
    else
      match p.entry.currentSeed
      case None => Step(Raised(KeyError("current_seed")), entries[key := p.entry])
      case Some(seed) =>
        var i := p.current;
        var s := AdvancedSeed(a.seedMode, seed, i, p.entry.iteration, draw);
        Step(Returned(Reply(Compose(a.prepend, prompts[i], a.append),
                            AdvancedName(a.filenameMode, a.base, files, suffixes, a.template, i), i, n,
                            AdvancedStatus(a.mode, a.loop, i, n, p.entry.iteration), Seed(s.output))),
             entries[key := p.entry.(currentSeed := Some(s.current))])
  }

  /** The rest of the call writes the node's entry in every case, so an earlier write to it is overwritten. */
  lemma AdvancedFinishOverwrites(entries: map<string, Entry>, e: Entry, a: AdvancedArgs, prompts: seq<string>,
                                 files: seq<string>, suffixes: seq<string>, draw: int, p: Pick)
    ensures AdvancedFinish(entries[AdvancedKey(a.workflowId) := e], a, prompts, files, suffixes, draw, p)
         == AdvancedFinish(entries, a, prompts, files, suffixes, draw, p)
  {
  }

  /**
   * An empty batch returns the six-value error tuple before any entry is
   * created or changed; any other batch returns something else.
   */
  lemma AdvancedStepNoPrompts(entries: map<string, Entry>, a: AdvancedArgs, prompts: seq<string>, files: seq<string>,
                              suffixes: seq<string>, draws: RandomDraws)
    requires AdvancedDrawsFit(entries, a, |prompts|, draws)
    ensures var s := AdvancedStep(entries, a, prompts, files, suffixes, draws);
      && (prompts == [] <==> s.outcome == Returned(AdvancedError(a.base)))
      && (prompts == [] ==> s.entries == entries)
  {
  }

  /** Prompt text with no non-blank line gives the error tuple, and only such text does. */
  lemma AdvancedNoPrompts(entries: map<string, Entry>, a: AdvancedArgs, draws: RandomDraws)
    requires AdvancedDrawsFit(entries, a, |ParseLines(a.prompts)|, draws)
    ensures var s := AdvancedCall(entries, a, draws);
      && (AllSpace(a.prompts) <==> s.outcome == Returned(AdvancedError(a.base)))
      && (AllSpace(a.prompts) ==> s.entries == entries)
  {
    ParseLinesEmpty(a.prompts);
    AdvancedStepNoPrompts(entries, a, ParseLines(a.prompts), ParseOptional(a.filenames), ParseOptional(a.suffixes),
                          draws);
  }

  /** A call writes only `{workflow_id}_advanced`, which exists afterwards. */
  lemma AdvancedIsolation(entries: map<string, Entry>, a: AdvancedArgs, prompts: seq<string>, files: seq<string>,
                          suffixes: seq<string>, draws: RandomDraws)
    requires AdvancedDrawsFit(entries, a, |prompts|, draws)
    ensures var s, key := AdvancedStep(entries, a, prompts, files, suffixes, draws), AdvancedKey(a.workflowId);
      && (forall k :: k != key ==> (k in s.entries <==> k in entries))
      && (forall k :: k != key && k in entries ==> s.entries[k] == entries[k])
      && (prompts != [] ==> key in s.entries)
  {
  }

  /**
   * A call reads only `{workflow_id}_advanced`: on two dictionaries that agree
   * there, it has the same outcome and leaves the same entry there.
   */
  lemma AdvancedReadsOwn(m1: map<string, Entry>, m2: map<string, Entry>, a: AdvancedArgs, prompts: seq<string>,
                         files: seq<string>, suffixes: seq<string>, draws: RandomDraws)
    requires SameAt(m1, m2, AdvancedKey(a.workflowId))
    requires AdvancedDrawsFit(m1, a, |prompts|, draws) && AdvancedDrawsFit(m2, a, |prompts|, draws)
    ensures var s1 := AdvancedStep(m1, a, prompts, files, suffixes, draws);
      var s2 := AdvancedStep(m2, a, prompts, files, suffixes, draws);
      s1.outcome == s2.outcome && SameAt(s1.entries, s2.entries, AdvancedKey(a.workflowId))
  {
  }

  /** The starting entry is new, reset, or left ready by a call with the same number of prompts. */
  predicate AdvancedStartsReady(entries: map<string, Entry>, a: AdvancedArgs, n: nat) {
    var key := AdvancedKey(a.workflowId);
    key !in entries || a.reset || SeededReady(entries[key], n, true)
  }

  /**
   * With a ready starting entry and a fitting random source, a call returns
   * normally, with an index below the count and a seed in [0, 2^31 - 1], and
   * leaves the entry ready for the next call with the same batch.
   */
  lemma AdvancedNeverFails(entries: map<string, Entry>, a: AdvancedArgs, prompts: seq<string>, files: seq<string>,
                           suffixes: seq<string>, draws: RandomDraws)
    requires prompts != [] && EntriesValid(entries) && DrawsInRange(draws) && a.generationSeed <= MaxSeed
    requires AdvancedStartsReady(entries, a, |prompts|)
    requires a.mode == Random ==> IsPermutation(draws.shuffle, |prompts|)
    ensures AdvancedDrawsFit(entries, a, |prompts|, draws)
    ensures var s, key := AdvancedStep(entries, a, prompts, files, suffixes, draws), AdvancedKey(a.workflowId);
      && s.outcome.Returned?
      && s.outcome.reply.currentIndex < |prompts|
      && s.outcome.reply.seed.Seed? && InSeedRange(s.outcome.reply.seed.value)
      && key in s.entries && SeededReady(s.entries[key], |prompts|, true)
  {
    var n, key := |prompts|, AdvancedKey(a.workflowId);
    var e := AdvancedPrepared(entries, a, n, draws);
    PreparedReady(entries, key, n, a.generationSeed, a.reset, draws, true);
    AdvancedSelectReady(e, a.mode, a.loop, a.manualIndex, n, draws.shuffle);
    var p := AdvancedSelect(e, a.mode, a.loop, a.manualIndex, n, draws.shuffle);
    SeedPolicy(a.seedMode, p.entry.currentSeed.value, p.current, p.entry.iteration, draws.seedDraw);
  }

  /**
   * How a call moves the cursor and which index it uses, from the prepared
   * entry. `manual` and `single` leave it alone; `random` shuffles, reads the
   * shuffled order at the stored index and advances with wrap-around. The
   * sequential mode (and any unlisted mode) reads the stored index and then
   * moves by `loop_mode`: `loop` wraps around, `once` stops at the last
   * position, and `ping_pong` moves by `direction` and bounces at either end.
   */
  lemma AdvancedSelection(entries: map<string, Entry>, a: AdvancedArgs, prompts: seq<string>, files: seq<string>,
                          suffixes: seq<string>, draws: RandomDraws)
    requires prompts != [] && AdvancedDrawsFit(entries, a, |prompts|, draws)
    requires AdvancedStep(entries, a, prompts, files, suffixes, draws).outcome.Returned?
    ensures var s, n := AdvancedStep(entries, a, prompts, files, suffixes, draws), |prompts|;
      var start, after, i := AdvancedPrepared(entries, a, n, draws), s.entries[AdvancedKey(a.workflowId)],
                             s.outcome.reply.currentIndex;
      var sequential := a.mode == Sequential || a.mode == Unlisted;
      && (a.mode == Manual ==> i == Clamp(a.manualIndex, n) && CursorOf(after) == CursorOf(start))
      && (a.mode == Single ==> i == 0 && CursorOf(after) == CursorOf(start))
      && (a.mode == Random ==>
            && after.randomOrder == Some(Shuffle(start.randomOrder.value, draws.shuffle))
            && i == after.randomOrder.value[start.index]
            && CursorOf(after) == LoopNext(CursorOf(start), n))
      && (sequential ==> i == start.index)
      && (sequential && a.loop == Loop ==> CursorOf(after) == LoopNext(CursorOf(start), n))
      && (sequential && a.loop == Once ==> CursorOf(after) == OnceNext(CursorOf(start), n))
      && (sequential && a.loop == PingPong ==>
            && start.direction.Some?
            && Swing(after.index, after.iteration, after.direction.value)
               == PingPongNext(Swing(start.index, start.iteration, start.direction.value), n))
      && (!(sequential && a.loop == PingPong) ==> after.direction == start.direction)
      && (a.mode != Random ==> after.randomOrder == start.randomOrder)
      && after.baseSeed == start.baseSeed
  {
  }

  /**
   * What a normal return carries: the selected prompt between the prepend and
   * append text, stripped; the filename rule of the node; a status built from
   * the iteration count after the move; and the seed policy's output, whose
   * new seed (the draw itself in random seed mode) is stored.
   */
  lemma AdvancedReply(entries: map<string, Entry>, a: AdvancedArgs, prompts: seq<string>, files: seq<string>,
                      suffixes: seq<string>, draws: RandomDraws)
    requires prompts != [] && AdvancedDrawsFit(entries, a, |prompts|, draws)
    requires AdvancedStep(entries, a, prompts, files, suffixes, draws).outcome.Returned?
    ensures var s, n := AdvancedStep(entries, a, prompts, files, suffixes, draws), |prompts|;
      var p := AdvancedSelect(AdvancedPrepared(entries, a, n, draws), a.mode, a.loop, a.manualIndex, n, draws.shuffle);
      var after, r := s.entries[AdvancedKey(a.workflowId)], s.outcome.reply;
      && p.Picked? && p.entry.currentSeed.Some?
      && r.currentIndex < n && r.totalCount == n
      && r.prompt == Compose(a.prepend, prompts[r.currentIndex], a.append)
      && r.filename == AdvancedName(a.filenameMode, a.base, files, suffixes, a.template, r.currentIndex)
      && r.status == AdvancedStatus(a.mode, a.loop, r.currentIndex, n, after.iteration)
      && (a.seedMode == RandomSeed ==> r.seed == Seed(draws.seedDraw) && after.currentSeed == Some(draws.seedDraw))
      && (var so := AdvancedSeed(a.seedMode, p.entry.currentSeed.value, r.currentIndex, after.iteration, draws.seedDraw);
          r.seed == Seed(so.output) && after == p.entry.(currentSeed := Some(so.current)))
  {
  }

  /**
   * Faults keep what was done before them: a ping-pong call on an entry
   * without `direction` (one the basic node created under the same key)
   * raises after creation and reset only, as does a random call without
   * `random_order`; a random index past the order's end raises after the
   * shuffle, a stale order element after the advance, and a stale sequential
   * index after the entry has moved.
   */
  lemma AdvancedFaults(entries: map<string, Entry>, a: AdvancedArgs, prompts: seq<string>, files: seq<string>,
                       suffixes: seq<string>, draws: RandomDraws)
    requires prompts != [] && AdvancedDrawsFit(entries, a, |prompts|, draws)
    ensures var s, n := AdvancedStep(entries, a, prompts, files, suffixes, draws), |prompts|;
      var start, key := AdvancedPrepared(entries, a, n, draws), AdvancedKey(a.workflowId);
      var sequential := a.mode == Sequential || a.mode == Unlisted;
      && (sequential && a.loop == PingPong && start.direction.None? ==>
            s.outcome == Raised(KeyError("direction")) && s.entries == entries[key := start])
      && (a.mode == Random && start.randomOrder.None? ==>
            s.outcome == Raised(KeyError("random_order")) && s.entries == entries[key := start])
      && (a.mode == Random && start.randomOrder.Some? && start.index >= |start.randomOrder.value| ==>
            s.outcome == Raised(IndexError)
            && s.entries == entries[key := start.(randomOrder := Some(Shuffle(start.randomOrder.value, draws.shuffle)))])
      && (a.mode == Random && start.randomOrder.Some? && start.index < |start.randomOrder.value| ==>
            var e1 := start.(randomOrder := Some(Shuffle(start.randomOrder.value, draws.shuffle)));
            e1.randomOrder.value[start.index] >= n ==>
              s.outcome == Raised(IndexError) && s.entries == entries[key := WithCursor(e1, LoopNext(CursorOf(e1), n))])
      && (sequential && a.loop == Loop && start.index >= n ==>
            s.outcome == Raised(IndexError) && s.entries == entries[key := WithCursor(start, LoopNext(CursorOf(start), n))])
      && (sequential && a.loop == Once && start.index >= n ==>
            s.outcome == Raised(IndexError) && s.entries == entries[key := start])
  {
  }

  /** Calls never invalidate the dictionary. */
  lemma AdvancedKeepsValid(entries: map<string, Entry>, a: AdvancedArgs, prompts: seq<string>, files: seq<string>,
                           suffixes: seq<string>, draws: RandomDraws)
    requires EntriesValid(entries) && DrawsInRange(draws) && a.generationSeed <= MaxSeed
    requires AdvancedDrawsFit(entries, a, |prompts|, draws)
    ensures EntriesValid(AdvancedStep(entries, a, prompts, files, suffixes, draws).entries)
  {
    if prompts != [] {
      var n, key := |prompts|, AdvancedKey(a.workflowId);
      var e := AdvancedPrepared(entries, a, n, draws);
      PreparedReady(entries, key, n, a.generationSeed, a.reset, draws, true);
      AdvancedSelectValid(e, a.mode, a.loop, a.manualIndex, n, draws.shuffle);
      var p := AdvancedSelect(e, a.mode, a.loop, a.manualIndex, n, draws.shuffle);
      if p.Picked? && p.current < n && p.entry.currentSeed.Some? {
        SeedPolicy(a.seedMode, p.entry.currentSeed.value, p.current, p.entry.iteration, draws.seedDraw);
      }
    }
  }

  /**
   * The conditions of the walk lemmas below: repeated sequential calls with
   * the same batch, starting from a workflow id that has no entry yet.
   */
  predicate RepeatedFromNew(entries: map<string, Entry>, a: AdvancedArgs, prompts: seq<string>, draws: RandomDraws) {
    && prompts != [] && a.mode == Sequential && !a.reset && AdvancedKey(a.workflowId) !in entries
    && EntriesValid(entries) && DrawsInRange(draws) && a.generationSeed <= MaxSeed
  }

  /** The dictionary after `k` identical calls in a mode without shuffling. */
  function AdvancedRepeat(entries: map<string, Entry>, a: AdvancedArgs, prompts: seq<string>, files: seq<string>,
                          suffixes: seq<string>, draws: RandomDraws, k: nat): map<string, Entry>
    requires a.mode != Random
  {
    if k == 0 then entries
    else AdvancedStep(AdvancedRepeat(entries, a, prompts, files, suffixes, draws, k - 1), a, prompts, files, suffixes,
                      draws).entries
  }

  /** A call without shuffling from a valid dictionary and a ready entry leaves both so. */
  lemma AdvancedStepReady(m: map<string, Entry>, a: AdvancedArgs, prompts: seq<string>, files: seq<string>,
                          suffixes: seq<string>, draws: RandomDraws)
    requires prompts != [] && a.mode != Random
    requires EntriesValid(m) && DrawsInRange(draws) && a.generationSeed <= MaxSeed
    requires AdvancedStartsReady(m, a, |prompts|)
    ensures var s := AdvancedStep(m, a, prompts, files, suffixes, draws).entries;
      && EntriesValid(s)
      && AdvancedStartsReady(s, a, |prompts|)
  {
    AdvancedKeepsValid(m, a, prompts, files, suffixes, draws);
    AdvancedNeverFails(m, a, prompts, files, suffixes, draws);
  }

  /** Repeated calls keep the dictionary valid and the entry ready. */
  lemma {:induction false} AdvancedRepeatReady(entries: map<string, Entry>, a: AdvancedArgs, prompts: seq<string>,
                                               files: seq<string>, suffixes: seq<string>, draws: RandomDraws, k: nat)
    requires RepeatedFromNew(entries, a, prompts, draws)
    ensures var m := AdvancedRepeat(entries, a, prompts, files, suffixes, draws, k);
      && EntriesValid(m)
      && AdvancedStartsReady(m, a, |prompts|)
  {
    if k == 0 {
      assert AdvancedRepeat(entries, a, prompts, files, suffixes, draws, k) == entries;
    } else {
      AdvancedRepeatReady(entries, a, prompts, files, suffixes, draws, k - 1);
      AdvancedStepReady(AdvancedRepeat(entries, a, prompts, files, suffixes, draws, k - 1), a, prompts, files,
                        suffixes, draws);
    }
  }

  /** The state a ping-pong call starts from: the stored one, or (0, 0, +1) for a new entry. */
  function StartSwing(m: map<string, Entry>, key: string): Swing {
    if key in m && m[key].direction.Some? then Swing(m[key].index, m[key].iteration, m[key].direction.value)
    else Swing(0, 0, 1)
  }

  /** One repeated ping-pong call moves the stored state one ping-pong step. */
  lemma AdvancedPingPongStep(m: map<string, Entry>, a: AdvancedArgs, prompts: seq<string>, files: seq<string>,
                             suffixes: seq<string>, draws: RandomDraws)
    requires prompts != [] && a.mode == Sequential && !a.reset && a.loop == PingPong
    requires EntriesValid(m) && DrawsInRange(draws) && a.generationSeed <= MaxSeed
    requires AdvancedStartsReady(m, a, |prompts|)
    ensures var s, key := AdvancedStep(m, a, prompts, files, suffixes, draws), AdvancedKey(a.workflowId);
      && key in s.entries && s.entries[key].direction.Some?
      && StartSwing(s.entries, key) == PingPongNext(StartSwing(m, key), |prompts|)
  {
    var n, key := |prompts|, AdvancedKey(a.workflowId);
    PreparedDefaults(m, key, n, a.generationSeed, a.reset, draws, true);
    AdvancedNeverFails(m, a, prompts, files, suffixes, draws);
    AdvancedSelection(m, a, prompts, files, suffixes, draws);
  }

  /** After `k` ping-pong calls the entry holds the ping-pong state `k` steps on from (0, 0, +1). */
  lemma {:induction false} AdvancedPingPongRun(entries: map<string, Entry>, a: AdvancedArgs, prompts: seq<string>,
                                               files: seq<string>, suffixes: seq<string>, draws: RandomDraws, k: nat)
    requires RepeatedFromNew(entries, a, prompts, draws) && a.loop == PingPong
    ensures StartSwing(AdvancedRepeat(entries, a, prompts, files, suffixes, draws, k), AdvancedKey(a.workflowId))
         == PingPongRun(Swing(0, 0, 1), |prompts|, k)
  {
    if k >= 1 {
      AdvancedPingPongRun(entries, a, prompts, files, suffixes, draws, k - 1);
      AdvancedRepeatReady(entries, a, prompts, files, suffixes, draws, k - 1);
      var m := AdvancedRepeat(entries, a, prompts, files, suffixes, draws, k - 1);
      AdvancedPingPongStep(m, a, prompts, files, suffixes, draws);
    }
  }

  /**
   * Sequential ping-pong from a new workflow id: call number `k` (from 0)
   * returns the index of the ping-pong state `k` steps on, the value read
   * before moving. For four prompts that is 0, 1, 2, 3, 2, 1, 0, 1.
   */
  lemma AdvancedPingPongWalk(entries: map<string, Entry>, a: AdvancedArgs, prompts: seq<string>, files: seq<string>,
                             suffixes: seq<string>, draws: RandomDraws, k: nat)
    requires RepeatedFromNew(entries, a, prompts, draws) && a.loop == PingPong
    ensures var s := AdvancedStep(AdvancedRepeat(entries, a, prompts, files, suffixes, draws, k), a, prompts, files,
                                  suffixes, draws);
      && s.outcome.Returned?
      && s.outcome.reply.currentIndex == PingPongRun(Swing(0, 0, 1), |prompts|, k).index
      && (|prompts| == 4 && k < 8 ==> s.outcome.reply.currentIndex == [0, 1, 2, 3, 2, 1, 0, 1][k])
  {
    var n, key := |prompts|, AdvancedKey(a.workflowId);
    var m := AdvancedRepeat(entries, a, prompts, files, suffixes, draws, k);
    AdvancedPingPongRun(entries, a, prompts, files, suffixes, draws, k);
    AdvancedRepeatReady(entries, a, prompts, files, suffixes, draws, k);
    if k == 0 {
      assert m == entries;
    }
    PreparedDefaults(m, key, n, a.generationSeed, a.reset, draws, true);
    AdvancedNeverFails(m, a, prompts, files, suffixes, draws);
    AdvancedSelection(m, a, prompts, files, suffixes, draws);
    PingPongFourItems();
  }

  /** One repeated `increment_batch` call with `loop` is one `Seeds.BatchNext` step. */
  lemma AdvancedBatchStep(m: map<string, Entry>, a: AdvancedArgs, prompts: seq<string>, files: seq<string>,
                          suffixes: seq<string>, draws: RandomDraws)
    requires prompts != [] && a.mode == Sequential && !a.reset && a.loop == Loop
    requires a.seedMode == IncrementBatch && a.generationSeed >= 0
    requires EntriesValid(m) && DrawsInRange(draws) && a.generationSeed <= MaxSeed
    requires AdvancedStartsReady(m, a, |prompts|)
    ensures var s, key := AdvancedStep(m, a, prompts, files, suffixes, draws), AdvancedKey(a.workflowId);
      && key in s.entries && s.entries[key].currentSeed.Some?
      && StartBatch(s.entries, key, a.generationSeed) == BatchNext(StartBatch(m, key, a.generationSeed).0,
                                                                   StartBatch(m, key, a.generationSeed).1, |prompts|)
  {
    var n, key := |prompts|, AdvancedKey(a.workflowId);
    PreparedDefaults(m, key, n, a.generationSeed, a.reset, draws, true);
    AdvancedNeverFails(m, a, prompts, files, suffixes, draws);
    AdvancedSelection(m, a, prompts, files, suffixes, draws);
    AdvancedReply(m, a, prompts, files, suffixes, draws);
  }

  /**
   * `increment_batch` with the `loop` policy from a new workflow id and a
   * given seed: after `k` calls the cursor and the stored seed are those of
   * `Seeds.BatchRun`, so (by `Seeds.BatchRunFromStart`) the seed goes up once
   * at the start of every pass after the first.
   */
  lemma {:induction false} AdvancedBatchRun(entries: map<string, Entry>, a: AdvancedArgs, prompts: seq<string>,
                                            files: seq<string>, suffixes: seq<string>, draws: RandomDraws, k: nat)
    requires RepeatedFromNew(entries, a, prompts, draws) && a.loop == Loop
    requires a.seedMode == IncrementBatch && a.generationSeed >= 0
    ensures StartBatch(AdvancedRepeat(entries, a, prompts, files, suffixes, draws, k), AdvancedKey(a.workflowId),
                       a.generationSeed)
         == BatchRun(Cursor(0, 0), a.generationSeed, |prompts|, k)
  {
    if k >= 1 {
      AdvancedBatchRun(entries, a, prompts, files, suffixes, draws, k - 1);
      AdvancedRepeatReady(entries, a, prompts, files, suffixes, draws, k - 1);
      var m := AdvancedRepeat(entries, a, prompts, files, suffixes, draws, k - 1);
      AdvancedBatchStep(m, a, prompts, files, suffixes, draws);
    }
  }
}
