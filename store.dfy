/**
 * The process-wide `ITERATOR_STATE` dictionary and the three node entry
 * points that update it in place. Each method follows its Python counterpart
 * statement by statement: `state` is a local copy of the dictionary entry,
 * written back after every change, so that an exception leaves behind what
 * Python's aliased dictionary would hold. Each method is proved to agree with
 * the node's specification function (`BasicCall`, `DynamicCall`,
 * `AdvancedCall`), about which the node modules prove their properties.
 */
module PromptStore {
  import opened Text
  import opened Selection
  import opened Seeds
  import opened Naming
  import opened Messages
  import opened Workflow
  import opened BasicNode
  import opened DynamicNode
  import opened AdvancedNode

  class Store {
    /** `ITERATOR_STATE`: one entry per state key. */
    var entries: map<string, Entry>

    ghost predicate Valid()
      reads this
    {
      EntriesValid(entries)
    }

    /** The empty dictionary the module starts with. */
    constructor ()
      ensures entries == map[] && Valid()
    {
      entries := map[];
    }

    /** `PromptIterator.iterate_prompt`. */
    method IteratePrompt(a: BasicArgs) returns (out: Outcome)
      requires Valid()
      modifies this
      ensures Step(out, entries) == BasicCall(old(entries), a)
      ensures Valid()
    {
      var promptList := ParseLines(a.prompts);
      var filenameList := if a.filenames != [] then ParseLines(a.filenames) else [];
      BasicKeepsValid(entries, a, promptList, filenameList);
      out := IteratePromptParsed(a, promptList, filenameList);
    }

    /** The body of `iterate_prompt` after the two list comprehensions. */
    method IteratePromptParsed(a: BasicArgs, promptList: seq<string>, filenameList: seq<string>) returns (out: Outcome)
      modifies this
      ensures Step(out, entries) == BasicStep(old(entries), a, promptList, filenameList)
    {
      if promptList == [] {
        return Returned(BasicError(a.base));
      }
      var totalCount := |promptList|;
      var key := a.workflowId;
      if key !in entries {
        entries := entries[key := Entry(0, 0, None, None, None, None)];
      }
      var state := entries[key];
      if a.reset {
        state := state.(index := 0, iteration := 0);
        entries := entries[key := state];
      }
      assert state == BasicPrepared(old(entries), a) && entries == old(entries)[key := state];
      ghost var pick := BasicSelect(state, a.mode, a.manualIndex, totalCount);
      var currentIndex: nat;
      if a.mode == Manual {
        currentIndex := if a.manualIndex < 0 then 0 else if a.manualIndex > totalCount - 1 then totalCount - 1
                        else a.manualIndex;
      } else if a.mode == Single {
        currentIndex := 0;
      } else {
        currentIndex := state.index;
        state := state.(index := (state.index + 1) % totalCount);
        if state.index == 0 {
          state := state.(iteration := state.iteration + 1);
        }
        entries := entries[key := state];
      }
      assert currentIndex == pick.current && state == pick.entry && entries == old(entries)[key := state];
      if currentIndex >= totalCount {
        return Raised(IndexError);
      }
      var currentPrompt := promptList[currentIndex];
      var currentFilename := BasicName(a.base, filenameList, currentIndex);
      var status := BasicStatus(a.mode, currentIndex, totalCount, state.iteration);
      out := Returned(Reply(currentPrompt, currentFilename, currentIndex, totalCount, status, NoSeed));
    }

    /** `PromptIteratorDynamic.iterate_prompts`. */
    method IteratePrompts(a: DynamicArgs, draws: RandomDraws) returns (out: Outcome)
      requires Valid() && DrawsInRange(draws) && a.generationSeed <= MaxSeed
      requires DynamicDrawsFit(entries, a, |Gathered(a.kwargs, PromptSlots)|, draws)
      modifies this
      ensures Step(out, entries) == DynamicCall(old(entries), a, draws)
      ensures Valid()
    {
      var promptList := CollectPrompts(a.kwargs);
      var suffixList := if a.suffixes != [] then ParseLines(a.suffixes) else [];
      DynamicKeepsValid(entries, a, promptList, suffixList, draws);
      out := IteratePromptsCollected(a, promptList, suffixList, draws);
    }

    /** The body of `iterate_prompts` after the prompts are collected and the suffixes parsed. */
    method IteratePromptsCollected(a: DynamicArgs, promptList: seq<string>, suffixList: seq<string>,
                                   draws: RandomDraws) returns (out: Outcome)
      requires DynamicDrawsFit(entries, a, |promptList|, draws)
      modifies this
      ensures Step(out, entries) == DynamicStep(old(entries), a, promptList, suffixList, draws)
    {
      if promptList == [] {
        return Returned(DynamicError(a.base));
      }
      var totalCount := |promptList|;
      var key := a.workflowId + "_dynamic";
      assert key == DynamicKey(a.workflowId);
      var state := SeededEntry(key, totalCount, a.generationSeed, a.reset, draws, false);
      DynamicSelectIsLoop(state, a.mode, a.manualIndex, totalCount, draws.shuffle);
      var pick := SelectIndex(key, state, a.mode, Loop, a.manualIndex, totalCount, draws.shuffle);
      assert entries == old(entries)[key := pick.entry];
      DynamicFinishOverwrites(old(entries), pick.entry, a, promptList, suffixList, draws.seedDraw, pick);
      out := FinishDynamic(a, key, pick, promptList, suffixList, draws.seedDraw);
    }

    /**
     * The rest of `iterate_prompts` once the index is chosen: the prompt
     * lookup, the filename, the seed policy and the status line.
     */
    method FinishDynamic(a: DynamicArgs, key: string, pick: Pick, promptList: seq<string>, suffixList: seq<string>,
                         draw: int) returns (out: Outcome)
      requires key == DynamicKey(a.workflowId) && key in entries && entries[key] == pick.entry
      modifies this
      ensures Step(out, entries) == DynamicFinish(old(entries), a, promptList, suffixList, draw, pick)
    {
      if pick.Broke? {
        return Raised(pick.fault);
      }
      var totalCount := |promptList|;
      var currentIndex := pick.current;
      var state := pick.entry;
      if currentIndex >= totalCount {
        return Raised(IndexError);
      }
      var currentPrompt := promptList[currentIndex];
      var currentFilename := DynamicName(a.filenameMode, a.base, suffixList, a.template, currentIndex);
      if state.currentSeed.None? {
        return Raised(KeyError("current_seed"));
      }
      var outputSeed;
      outputSeed, state := ApplySeed(key, state, a.seedMode, currentIndex, draw, false);
      var status := DynamicStatus(a.mode, currentIndex, totalCount, state.iteration);
      out := Returned(Reply(currentPrompt, currentFilename, currentIndex, totalCount, status, Seed(outputSeed)));
    }

    /**
     * Lookup-or-create under `key` and the optional reset, in the dynamic node
     * or (`withDirection`) the advanced node.
     */
    method SeededEntry(key: string, n: nat, generationSeed: int, reset: bool, draws: RandomDraws,
                       withDirection: bool) returns (state: Entry)
      modifies this
      ensures state == Prepared(old(entries), key, n, generationSeed, reset, draws, withDirection)
      ensures entries == old(entries)[key := state]
    {
      if key !in entries {
        var g := generationSeed;
        entries := entries[key := Entry(0, 0, if withDirection then Some(1) else None, Some(Identity(n)),
                                        Some(if g >= 0 then g else draws.createBase),
                                        Some(if g >= 0 then g else draws.createCurrent))];
      }
      state := entries[key];
      if reset {
        var seed := if generationSeed >= 0 then generationSeed else draws.resetBase;
        state := state.(index := 0, iteration := 0);
        if withDirection {
          state := state.(direction := Some(1));
        }
        state := state.(randomOrder := Some(Identity(n)), baseSeed := Some(seed), currentSeed := Some(seed));
        entries := entries[key := state];
      }
    }

    /**
     * The in-place shuffle of random mode and the choice of the index, with
     * `loop` as the sequential policy (the dynamic node always loops).
     */
    method SelectIndex(key: string, state: Entry, mode: Mode, loop: LoopMode, manualIndex: int, n: nat,
                       perm: seq<nat>) returns (pick: Pick)
      requires n >= 1 && key in entries && entries[key] == state
      requires mode == Random ==> ShuffleFits(state, perm)
      modifies this
      ensures pick == AdvancedSelect(state, mode, loop, manualIndex, n, perm)
      ensures entries == old(entries)[key := pick.entry]
    {
      if mode == Manual {
        pick := Picked(Clamp(manualIndex, n), state);
      } else if mode == Single {
        pick := Picked(0, state);
      } else if mode == Random {
        pick := RandomIndex(key, state, n, perm);
      } else {
        pick := SequentialIndex(key, state, loop, n);
      }
    }

    /** Random mode: shuffle the stored order in place, read it at `index`, advance `index`. */
    method RandomIndex(key: string, state: Entry, n: nat, perm: seq<nat>) returns (pick: Pick)
      requires n >= 1 && key in entries && entries[key] == state && ShuffleFits(state, perm)
      modifies this
      ensures pick == RandomPick(state, n, perm)
      ensures entries == old(entries)[key := pick.entry]
    {
      var st := state;
      if st.randomOrder.None? {
        return Broke(KeyError("random_order"), st);
      }
      st := st.(randomOrder := Some(Shuffle(st.randomOrder.value, perm)));
      entries := entries[key := st];
      var order := st.randomOrder.value;
      if st.index >= |order| {
        return Broke(IndexError, st);
      }
      var currentIndex := order[st.index];
      st := st.(index := (st.index + 1) % n);
      if st.index == 0 {
        st := st.(iteration := st.iteration + 1);
      }
      entries := entries[key := st];
      pick := Picked(currentIndex, st);
    }

    /** The sequential branch: read `index`, then move it by `loop`. */
    method SequentialIndex(key: string, state: Entry, loop: LoopMode, n: nat) returns (pick: Pick)
      requires n >= 1 && key in entries && entries[key] == state
      modifies this
      ensures pick == SequentialPick(state, loop, n)
      ensures entries == old(entries)[key := pick.entry]
    {
      var st := state;
      var currentIndex := st.index;
      if loop == Once {
        if st.index < n - 1 {
          st := st.(index := st.index + 1);
          entries := entries[key := st];
        }
      } else if loop == PingPong {
        if st.direction.None? {
          return Broke(KeyError("direction"), st);
        }
        var moved := st.index + st.direction.value;
        if moved >= n - 1 {
          st := st.(direction := Some(-1), index := n - 1);
        } else if moved <= 0 {
          st := st.(direction := Some(1), index := 0, iteration := st.iteration + 1);
        } else {
          st := st.(index := moved);
        }
        entries := entries[key := st];
      } else {
        st := st.(index := (st.index + 1) % n);
        if st.index == 0 {
          st := st.(iteration := st.iteration + 1);
        }
        entries := entries[key := st];
      }
      pick := Picked(currentIndex, st);
    }

    /**
     * The seed policy on the entry under `key`. With `storeDraw` (the advanced
     * node) a random draw also becomes `current_seed`.
     */
    method ApplySeed(key: string, state: Entry, seedMode: SeedMode, currentIndex: nat, draw: int, storeDraw: bool)
      returns (outputSeed: int, updated: Entry)
      requires key in entries && entries[key] == state && state.currentSeed.Some?
      modifies this
      ensures storeDraw ==>
        var so := AdvancedSeed(seedMode, state.currentSeed.value, currentIndex, state.iteration, draw);
        outputSeed == so.output && updated == state.(currentSeed := Some(so.current))
      ensures !storeDraw ==>
        var so := DynamicSeed(seedMode, state.currentSeed.value, currentIndex, state.iteration, draw);
        outputSeed == so.output && updated == state.(currentSeed := Some(so.current))
      ensures entries == old(entries)[key := updated]
    {
      updated := state;
      outputSeed := updated.currentSeed.value;
      var shouldIncrement := false;
      if seedMode == IncrementPrompt {
        shouldIncrement := true;
      } else if seedMode == IncrementBatch && currentIndex == 0 && updated.iteration > 0 {
        shouldIncrement := true;
      } else if seedMode == RandomSeed {
        outputSeed := draw;
        if storeDraw {
          updated := updated.(currentSeed := Some(outputSeed));
          entries := entries[key := updated];
        }
      }
      if shouldIncrement && seedMode != RandomSeed {
        updated := updated.(currentSeed := Some((updated.currentSeed.value + 1) % SeedModulus));
        entries := entries[key := updated];
        outputSeed := updated.currentSeed.value;
      }
    }

    /** `PromptIteratorAdvanced.iterate_prompt_advanced`. */
    method IterateAdvanced(a: AdvancedArgs, draws: RandomDraws) returns (out: Outcome)
      requires Valid() && DrawsInRange(draws) && a.generationSeed <= MaxSeed
      requires AdvancedDrawsFit(entries, a, |ParseLines(a.prompts)|, draws)
      modifies this
      ensures Step(out, entries) == AdvancedCall(old(entries), a, draws)
      ensures Valid()
    {
      var promptList := ParseLines(a.prompts);
      var filenameList := if a.filenames != [] then ParseLines(a.filenames) else [];
      var suffixList := if a.suffixes != [] then ParseLines(a.suffixes) else [];
      AdvancedKeepsValid(entries, a, promptList, filenameList, suffixList, draws);
      out := IterateAdvancedParsed(a, promptList, filenameList, suffixList, draws);
    }

    /** The body of `iterate_prompt_advanced` after the three list comprehensions. */
    method IterateAdvancedParsed(a: AdvancedArgs, promptList: seq<string>, filenameList: seq<string>,
                                 suffixList: seq<string>, draws: RandomDraws) returns (out: Outcome)
      requires AdvancedDrawsFit(entries, a, |promptList|, draws)
      modifies this
      ensures Step(out, entries) == AdvancedStep(old(entries), a, promptList, filenameList, suffixList, draws)
    {
      if promptList == [] {
        return Returned(AdvancedError(a.base));
      }
      var totalCount := |promptList|;
      var key := a.workflowId + "_advanced";
      assert key == AdvancedKey(a.workflowId);
      var state := SeededEntry(key, totalCount, a.generationSeed, a.reset, draws, true);
      assert state == AdvancedPrepared(old(entries), a, totalCount, draws);
      var pick := SelectIndex(key, state, a.mode, a.loop, a.manualIndex, totalCount, draws.shuffle);
      assert entries == old(entries)[key := pick.entry];
      AdvancedFinishOverwrites(old(entries), pick.entry, a, promptList, filenameList, suffixList, draws.seedDraw, pick);
      out := FinishAdvanced(a, key, pick, promptList, filenameList, suffixList, draws.seedDraw);
    }

    /**
     * The rest of `iterate_prompt_advanced` once the index is chosen: the
     * prompt lookup, the reply text and the seed policy.
     */
    method FinishAdvanced(a: AdvancedArgs, key: string, pick: Pick, promptList: seq<string>,
                          filenameList: seq<string>, suffixList: seq<string>, draw: int) returns (out: Outcome)
      requires key == AdvancedKey(a.workflowId) && key in entries && entries[key] == pick.entry
      modifies this
      ensures Step(out, entries) == AdvancedFinish(old(entries), a, promptList, filenameList, suffixList, draw, pick)
    {
      if pick.Broke? {
        return Raised(pick.fault);
      }
      var totalCount := |promptList|;
      var currentIndex := pick.current;
      var state := pick.entry;
      if currentIndex >= totalCount {
        return Raised(IndexError);
      }
      var currentPrompt := Compose(a.prepend, promptList[currentIndex], a.append);
      var currentFilename := AdvancedName(a.filenameMode, a.base, filenameList, suffixList, a.template, currentIndex);
      var status := AdvancedStatus(a.mode, a.loop, currentIndex, totalCount, state.iteration);
      if state.currentSeed.None? {
        return Raised(KeyError("current_seed"));
      }
      var outputSeed;
      outputSeed, state := ApplySeed(key, state, a.seedMode, currentIndex, draw, true);
      out := Returned(Reply(currentPrompt, currentFilename, currentIndex, totalCount, status, Seed(outputSeed)));
    }
  }
}
