/**
 * `PromptIterator.iterate_prompt`: the basic node. Prompts and filenames are
 * newline-separated text; the entry is keyed by the bare workflow id and
 * holds only `index` and `iteration`.
 */
module BasicNode {
  import opened Text
  import opened Selection
  import opened Naming
  import opened Messages
  import opened Workflow

  /** The node's inputs. */
  datatype BasicArgs = BasicArgs(prompts: string, mode: Mode, base: string, filenames: string,
                                 manualIndex: int, reset: bool, workflowId: string)

  /**
   * `manual` clamps, `single` takes 0, and both leave the entry alone; any
   * other mode reads the stored index and advances only the cursor.
   */
  function BasicSelect(e: Entry, mode: Mode, manualIndex: int, n: nat): (p: Pick)
    requires n >= 1
    ensures p.Picked?
    ensures mode == Manual ==> p.current == Clamp(manualIndex, n) && p.entry == e
    ensures mode == Single ==> p.current == 0 && p.entry == e
    ensures mode != Manual && mode != Single ==>
      && p.current == e.index
      && CursorOf(p.entry) == LoopNext(CursorOf(e), n)
      && WithCursor(p.entry, CursorOf(e)) == e
  {
    if mode == Manual then Picked(Clamp(manualIndex, n), e)
    else if mode == Single then Picked(0, e)
    else LoopPick(e, n)
  }

  /** The error tuple for an empty batch. */
  function BasicError(base: string): Reply {
    Reply("", base, 0, 0, NoPromptsError, NoSeed)
  }

  /** The entry after lookup-or-create and the optional reset. */
  function BasicPrepared(entries: map<string, Entry>, a: BasicArgs): Entry {
    var e := Lookup(entries, a.workflowId, BasicFresh());
    if a.reset then WithCursor(e, Cursor(0, 0)) else e
  }

  /** One call of the node on the dictionary `entries`: parse, then `BasicStep`. */
  function BasicCall(entries: map<string, Entry>, a: BasicArgs): Step {
    BasicStep(entries, a, ParseLines(a.prompts), ParseOptional(a.filenames))
  }

  /** The call once the prompt and filename lists are parsed. */
  function BasicStep(entries: map<string, Entry>, a: BasicArgs, prompts: seq<string>, files: seq<string>): Step {
    if prompts == [] then
      Step(Returned(BasicError(a.base)), entries)
    else
      var n := |prompts|;
      var p := BasicSelect(BasicPrepared(entries, a), a.mode, a.manualIndex, n);
      var after := entries[a.workflowId := p.entry];
      if p.current >= n then
        Step(Raised(IndexError), after)
      else
        var i := p.current;
        Step(Returned(Reply(prompts[i], BasicName(a.base, files, i), i, n,
                            BasicStatus(a.mode, i, n, p.entry.iteration), NoSeed)), after)
  }

  /**
   * An empty prompt list returns the error tuple and leaves the dictionary as
   * it was; any other list returns something else.
   */
  lemma BasicStepNoPrompts(entries: map<string, Entry>, a: BasicArgs, prompts: seq<string>, files: seq<string>)
    ensures var s := BasicStep(entries, a, prompts, files);
      && (prompts == [] <==> s.outcome == Returned(BasicError(a.base)))
      && (prompts == [] ==> s.entries == entries)
  {
  }

  /**
   * Text with no non-blank line gives the error tuple and leaves the
   * dictionary as it was; any other text gives something else.
   */
  lemma BasicNoPrompts(entries: map<string, Entry>, a: BasicArgs)
    ensures var s := BasicCall(entries, a);
      && (AllSpace(a.prompts) <==> s.outcome == Returned(BasicError(a.base)))
      && (AllSpace(a.prompts) ==> s.entries == entries)
  {
    ParseLinesEmpty(a.prompts);
    BasicStepNoPrompts(entries, a, ParseLines(a.prompts), ParseOptional(a.filenames));
  }

  /** A call writes only the entry under its own workflow id, which exists afterwards. */
  lemma BasicIsolation(entries: map<string, Entry>, a: BasicArgs, prompts: seq<string>, files: seq<string>)
    ensures var s := BasicStep(entries, a, prompts, files);
      && (forall key :: key != a.workflowId ==> (key in s.entries <==> key in entries))
      && (forall key :: key != a.workflowId && key in entries ==> s.entries[key] == entries[key])
      && (prompts != [] ==> a.workflowId in s.entries)
  {
  }

  /**
   * A call reads only the entry under its own workflow id: on two dictionaries
   * that agree there, it has the same outcome and leaves the same entry there.
   */
  lemma BasicReadsOwn(m1: map<string, Entry>, m2: map<string, Entry>, a: BasicArgs, prompts: seq<string>,
                      files: seq<string>)
    requires SameAt(m1, m2, a.workflowId)
    ensures var s1, s2 := BasicStep(m1, a, prompts, files), BasicStep(m2, a, prompts, files);
      s1.outcome == s2.outcome && SameAt(s1.entries, s2.entries, a.workflowId)
  {
  }

  /**
   * What a call does to the cursor and which index it uses. From the cursor
   * after lookup, creation (0, 0) and reset (0, 0): `manual` uses the clamped
   * request and `single` index 0, both leaving the cursor alone; every other
   * mode uses the stored index and advances with wrap-around. Nothing else in
   * the entry changes. The reply carries the prompt at that index, the listed
   * or automatic filename, and a status built from the iteration count after
   * the advance.
   */
  lemma BasicSelection(entries: map<string, Entry>, a: BasicArgs, prompts: seq<string>, files: seq<string>)
    requires prompts != []
    ensures var s := BasicStep(entries, a, prompts, files);
      var n, start := |prompts|, CursorOf(BasicPrepared(entries, a));
      var after := s.entries[a.workflowId];
      && (a.reset || a.workflowId !in entries ==> start == Cursor(0, 0))
      && (a.workflowId in entries && !a.reset ==> start == CursorOf(entries[a.workflowId]))
      && (a.mode == Manual || a.mode == Single ==> CursorOf(after) == start)
      && (a.mode != Manual && a.mode != Single ==> CursorOf(after) == LoopNext(start, n))
      && WithCursor(after, Cursor(0, 0)) == WithCursor(Lookup(entries, a.workflowId, BasicFresh()), Cursor(0, 0))
      && (s.outcome.Returned? ==>
            var r := s.outcome.reply;
            && r.totalCount == n && r.currentIndex < n
            && (a.mode == Manual ==> r.currentIndex == Clamp(a.manualIndex, n))
            && (a.mode == Single ==> r.currentIndex == 0)
            && (a.mode != Manual && a.mode != Single ==> r.currentIndex == start.index)
            && r.prompt == prompts[r.currentIndex]
            && r.filename == BasicName(a.base, files, r.currentIndex)
            && r.status == BasicStatus(a.mode, r.currentIndex, n, after.iteration)
            && r.seed == NoSeed)
  {
  }

  /**
   * While the number of prompts is the one the stored index was produced with
   * (fresh entry, reset, or an index below it), a call returns normally, and
   * the stored index stays below the count for the next call.
   */
  lemma BasicNeverFails(entries: map<string, Entry>, a: BasicArgs, prompts: seq<string>, files: seq<string>)
    requires prompts != []
    requires a.reset || a.workflowId !in entries || entries[a.workflowId].index < |prompts|
    ensures var s := BasicStep(entries, a, prompts, files);
      && s.outcome.Returned?
      && s.outcome.reply.currentIndex < |prompts|
      && s.entries[a.workflowId].index < |prompts|
  {
  }

  /**
   * The stale-index failure: outside `manual` and `single`, a stored index that
   * is not below the current count makes the prompt lookup raise, after the
   * entry has already been advanced.
   */
  lemma BasicStaleIndex(entries: map<string, Entry>, a: BasicArgs, prompts: seq<string>, files: seq<string>)
    requires prompts != [] && !a.reset && a.workflowId in entries && entries[a.workflowId].index >= |prompts|
    requires a.mode != Manual && a.mode != Single
    ensures var s := BasicStep(entries, a, prompts, files);
      && s.outcome == Raised(IndexError)
      && CursorOf(s.entries[a.workflowId]) == LoopNext(CursorOf(entries[a.workflowId]), |prompts|)
  {
  }

  /** Calls never invalidate the dictionary: the basic node touches only the cursor. */
  lemma BasicKeepsValid(entries: map<string, Entry>, a: BasicArgs, prompts: seq<string>, files: seq<string>)
    requires EntriesValid(entries)
    ensures EntriesValid(BasicStep(entries, a, prompts, files).entries)
  {
  }

  /** The dictionary after `k` identical calls. */
  function BasicRepeat(entries: map<string, Entry>, a: BasicArgs, prompts: seq<string>, files: seq<string>,
                       k: nat): map<string, Entry> {
    if k == 0 then entries else BasicStep(BasicRepeat(entries, a, prompts, files, k - 1), a, prompts, files).entries
  }

  lemma {:induction false} BasicRepeatCursor(entries: map<string, Entry>, a: BasicArgs, prompts: seq<string>,
                                             files: seq<string>, k: nat)
    requires prompts != [] && !a.reset && a.mode != Manual && a.mode != Single
    requires a.workflowId !in entries
    ensures k >= 1 ==> a.workflowId in BasicRepeat(entries, a, prompts, files, k)
    ensures k >= 1 ==> CursorOf(BasicRepeat(entries, a, prompts, files, k)[a.workflowId])
                       == LoopRun(Cursor(0, 0), |prompts|, k)
  {
    if k >= 2 {
      BasicRepeatCursor(entries, a, prompts, files, k - 1);
    }
  }

  /**
   * Sequential mode from a new workflow id: the call numbered `k` (from 0)
   * returns normally, reads the cursor `k` loop steps from (0, 0) and leaves it
   * `k + 1` steps on. With `Selection.LoopRunFromStart` this is index `k mod n`
   * and `k div n` completed passes: the batch is walked 0, 1, ..., n-1, 0, 1, ...
   * with one iteration counted per pass.
   */
  lemma BasicSequentialWalk(entries: map<string, Entry>, a: BasicArgs, prompts: seq<string>, files: seq<string>,
                            k: nat)
    requires prompts != [] && !a.reset && a.mode != Manual && a.mode != Single
    requires a.workflowId !in entries
    ensures var n, s := |prompts|, BasicStep(BasicRepeat(entries, a, prompts, files, k), a, prompts, files);
      && s.outcome.Returned?
      && s.outcome.reply.currentIndex == LoopRun(Cursor(0, 0), n, k).index
      && a.workflowId in s.entries
      && CursorOf(s.entries[a.workflowId]) == LoopRun(Cursor(0, 0), n, k + 1)
  {
    var m := BasicRepeat(entries, a, prompts, files, k);
    BasicRepeatCursor(entries, a, prompts, files, k);
    if k == 0 {
      assert m == entries;
    }
    BasicSelection(m, a, prompts, files);
    BasicNeverFails(m, a, prompts, files);
  }
}
