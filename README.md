# Prompt iterator, modelled in Dafny

A model of the three ComfyUI nodes in `prompt_iterator.py`, and proofs about it:

- `PromptIterator.iterate_prompt`, the basic node;
- `PromptIteratorDynamic.iterate_prompts`, the dynamic node, with inputs `prompt_1` .. `prompt_20`;
- `PromptIteratorAdvanced.iterate_prompt_advanced`, the advanced node.

Each call of a node does four things. It parses a batch of prompts, chooses an index by `mode` (and by `loop_mode` in the advanced node), derives a filename, and applies the `seed_mode` policy (not in the basic node). Calls remember their position in the process-wide dictionary `ITERATOR_STATE`.

The project is organised as follows:

- `store.dfy` (`PromptStore.Store`) is that dictionary. It is a class with one `map` field. It has three entry methods, one per node (`IteratePrompt`, `IteratePrompts`, `IterateAdvanced`), and ten phase methods they call (`IteratePromptParsed`, `IteratePromptsCollected`, `IterateAdvancedParsed`, `SeededEntry`, `SelectIndex`, `RandomIndex`, `SequentialIndex`, `ApplySeed`, `FinishDynamic`, `FinishAdvanced`). Together they follow the Python bodies statement by statement, and each is proved equal to a specification function.
- Each node has a module (`basic_node.dfy`, `dynamic_node.dfy`, `advanced_node.dfy`). The module defines the specification function over the dictionary (`BasicCall`, `DynamicCall`, `AdvancedCall`) and proves how a call moves the entry and what it returns.
- The shared pieces each have a module:
  - `Text`: strip, split and parsing, plus `str(n)` and `{:03d}`.
  - `Selection`: the index policies.
  - `Naming`: filenames.
  - `Messages`: status text and prompt composition.
  - `Seeds`: the seed policy.
  - `Workflow`: the dictionary entries, creation, reset and selection.

Randomness is a parameter. `RandomDraws` carries two things:

- the `randint` values a call may use (two at creation, one at a reset, one for the `random` seed mode);
- the permutation that `random.shuffle` applies.

A call ends in one of two ways:

- `Returned(reply)`, where the reply is the result tuple. The last slot of the tuple is `NoSeed` for the five-value tuples, `Seed(v)`, or `BlankSeed` for the advanced node's `""`.
- `Raised(fault)`, a `KeyError` or an `IndexError`.

Either way, the dictionary is left as Python's in-place updates would leave it.

Some of the code's behaviour is easy to misread; the model follows the code as written:

- Random mode shuffles `random_order` before it reads from it in the same call (lines 202-211, 542-551). The read therefore comes from the new permutation, not the previous one.
- Ping-pong reads the index and then moves it, and it clamps at each end. Neither end is read twice in a row: with four prompts the calls read 0, 1, 2, 3, 2, 1, 0, 1 (lines 557-571).
- The template `{suffix}` value has every leading underscore removed, not only one (`lstrip('_')`, lines 235, 592).
- In the `random` seed mode, only the advanced node stores the drawn seed as `current_seed` (line 617). The dynamic node outputs the draw and keeps the old seed (line 253).
- A new entry with a negative `generation_seed` draws `base_seed` and `current_seed` independently (lines 183-184, 522-523). A reset draws one value and uses it for both (lines 198-199, 538-539).
- The advanced node's error tuple has six values, the last being `""` (line 510). The other two nodes return five (lines 169, 345).
- A stale entry can make a call raise rather than return the error tuple. This happens when the prompt count changed without a reset, or when an entry was created under the same key by another node. A missing `random_order`, `direction` or `current_seed` raises `KeyError`; an index past the end raises `IndexError`. The model has these paths as `Raised` outcomes.
- The basic node has no random branch. A `mode` of `random`, like any other unlisted string, takes its sequential branch without the iteration suffix (lines 366, 386).

## Model

| member | source | states |
|---|---|---|
| PromptStore.Store.constructor | prompt_iterator.py:13 | The dictionary starts empty and valid. |
| PromptStore.Store.IteratePrompt | prompt_iterator.py:332-389 | The basic node's outcome and new dictionary are those of `BasicCall` on the old dictionary, and the dictionary stays valid. |
| PromptStore.Store.IteratePromptParsed | prompt_iterator.py:344-389 | After parsing: lookup-or-create under the bare id, reset, read-then-advance, prompt lookup, filename and status. The result equals `BasicStep`. |
| PromptStore.Store.IteratePrompts | prompt_iterator.py:149-267 | The dynamic node's outcome and new dictionary are those of `DynamicCall` on the old dictionary, and the dictionary stays valid. |
| PromptStore.Store.IteratePromptsCollected | prompt_iterator.py:168-267 | After collection: the `{id}_dynamic` entry is created or reset, shuffled in random mode, used for selection and then for the seed policy. The result equals `DynamicStep`. |
| PromptStore.Store.FinishDynamic | prompt_iterator.py:223-267 | Once the index is chosen: prompt lookup, filename, the seed read (a `KeyError` when it is missing) and the seed policy without storing a random draw, then the status. The result equals `DynamicFinish`. |
| PromptStore.Store.SeededEntry | prompt_iterator.py:177-199 | Creates the entry when the key is missing (two seed draws), resets it on request (one draw for both seeds, `direction` 1 in the advanced node) and writes it back. Ends in `Prepared`. |
| PromptStore.Store.SelectIndex | prompt_iterator.py:541-575 | Manual clamps, single takes 0, random shuffles and reads, everything else follows `loop_mode`. Returns `AdvancedSelect` and stores the entry it leaves. |
| PromptStore.Store.RandomIndex | prompt_iterator.py:542-555 | Shuffles `random_order` in place, reads it at `index` and then advances `index` with wrap-around. The faults keep the shuffle. Equals `RandomPick`. |
| PromptStore.Store.SequentialIndex | prompt_iterator.py:556-575 | Reads `index`, then moves it by `once`, `ping_pong` (a `KeyError` without `direction`) or `loop`. Equals `SequentialPick`. |
| PromptStore.Store.ApplySeed | prompt_iterator.py:606-622 | `should_increment`, the `random` draw (stored only when `storeDraw`) and the increment modulo 2^31. Equals `AdvancedSeed` or `DynamicSeed`; the entry holds the new seed. |
| PromptStore.Store.IterateAdvanced | prompt_iterator.py:491-637 | The advanced node's outcome and new dictionary are those of `AdvancedCall` on the old dictionary, and the dictionary stays valid. |
| PromptStore.Store.IterateAdvancedParsed | prompt_iterator.py:509-637 | After parsing: error tuple, `{id}_advanced` entry, selection, then the rest. The result equals `AdvancedStep`. |
| PromptStore.Store.FinishAdvanced | prompt_iterator.py:577-637 | Composed prompt, filename and status, the seed read and the seed policy storing a random draw. The result equals `AdvancedFinish`. |
| DynamicNode.CollectPrompts | prompt_iterator.py:160-166 | The loop over slots 1..20 returns `Gathered(kwargs, 20)`: each present, non-blank slot, stripped, in slot order. |
| DynamicNode.Slot | prompt_iterator.py:162-166 | A slot gives at most one prompt. It gives one exactly when `prompt_i` is present and not all whitespace, and that prompt is the stripped value. |
| DynamicNode.Gathered | prompt_iterator.py:160-166 | At most one prompt per slot looked at. Every collected prompt is non-empty and trimmed. |
| DynamicNode.SlotKeysDistinct | prompt_iterator.py:162 | Distinct slot numbers give distinct input names `prompt_i`. |
| DynamicNode.GatheredEmpty | prompt_iterator.py:160-169 | Nothing is collected if and only if every slot looked at is missing or blank. |
| DynamicNode.GatheredOnlySlots | prompt_iterator.py:161-166 | The collection depends only on what each slot contributes, not on other keyword inputs. |
| DynamicNode.SlotIgnoresOtherKeys | prompt_iterator.py:163-165 | Other keys make no difference to a slot. Removing a slot's key changes nothing if and only if the value was blank. |
| DynamicNode.GatheredDense | prompt_iterator.py:161-166 | With slots 1..k all filled, prompt j is slot j+1 stripped, kept whole even when it has several lines. |
| DynamicNode.DynamicStepNoPrompts | prompt_iterator.py:168-169 | The five-value error tuple comes back if and only if the batch is empty, and then no entry is created or changed. |
| DynamicNode.DynamicNoPrompts | prompt_iterator.py:160-169 | The error tuple comes back exactly when every slot 1..20 is missing or blank, and then the dictionary is unchanged. |
| DynamicNode.DynamicIsolation | prompt_iterator.py:176-187 | A call writes only `{id}_dynamic`, which exists afterwards. Every other key keeps its presence and value. |
| DynamicNode.DynamicReadsOwn | prompt_iterator.py:176-187 | A call reads only `{id}_dynamic`. On two dictionaries that agree at that key, it has the same outcome and leaves the same entry there. |
| DynamicNode.DynamicNeverFails | prompt_iterator.py:205-258 | Starting from an entry that is new, reset or ready for the same prompt count, a call returns normally with index < N and with a seed in [0, 2^31-1]. It leaves the entry ready. |
| DynamicNode.DynamicSelection | prompt_iterator.py:201-221 | Manual uses the clamp and single uses 0, both without moving the cursor. Random shuffles, reads the shuffled order at the old index and advances. The other modes read the index and advance with wrap-around. `base_seed` and `direction` are never changed. |
| DynamicNode.DynamicReply | prompt_iterator.py:223-267 | The reply holds the prompt at the index used, the dynamic filename rule and the status using the post-advance iteration. The seed output and stored seed are those of `DynamicSeed`. |
| DynamicNode.DynamicFaults | prompt_iterator.py:201-224 | If `random_order` is missing, a `KeyError` follows creation or reset only. An index past the order's end gives an `IndexError` that keeps the shuffle. A stale order element (one ≥ N) gives an `IndexError` after the shuffle and the advance. A stale sequential index gives an `IndexError` after the advance. |
| DynamicNode.DynamicKeepsValid | prompt_iterator.py:176-258 | Every call keeps every entry valid: direction is ±1, `random_order` is a permutation, and both seeds are in [0, 2^31-1]. |
| DynamicNode.DynamicStepReady | prompt_iterator.py:176-267 | A call without shuffling from a valid dictionary and a ready entry leaves the dictionary valid and the entry ready. |
| DynamicNode.DynamicRepeatReady | prompt_iterator.py:176-267 | After any number of sequential calls from a new id, the dictionary is valid and the entry ready. |
| DynamicNode.DynamicBatchStep | prompt_iterator.py:216-258 | One repeated sequential call moves the stored cursor one `LoopNext` step. Under `increment_batch` it moves (cursor, stored seed) one `BatchNext` step. |
| DynamicNode.DynamicBatchRun | prompt_iterator.py:216-258 | After k sequential calls from a new id, the cursor is k loop steps from (0, 0). Under `increment_batch`, cursor and stored seed are `BatchRun`. |
| DynamicNode.DynamicSequentialWalk | prompt_iterator.py:216-258 | Call k (from 0) from a new id returns normally with index k mod N and that prompt. Under `increment_batch` it outputs the seed stored after k + 1 calls. |
| DynamicNode.DynamicBatchThreePrompts | test_seed.py:42-55 | With three prompts under `increment_batch`, call k reads prompt k mod 3 and outputs the starting seed plus k div 3. From 1000 that is 1000, 1000, 1000, 1001, … |
| BasicNode.BasicSelect | prompt_iterator.py:360-371 | Manual picks the clamped index and single picks 0, both leaving the entry as it was. Every other mode picks the stored index, advances the cursor with wrap-around, and changes nothing else in the entry. |
| BasicNode.BasicStepNoPrompts | prompt_iterator.py:344-345 | The error tuple comes back if and only if the batch is empty, and then the dictionary is unchanged. |
| BasicNode.BasicNoPrompts | prompt_iterator.py:341-345 | Prompt text that is all whitespace gives the error tuple and leaves the dictionary unchanged, and no other text gives the error tuple. |
| BasicNode.BasicIsolation | prompt_iterator.py:349-353 | A call writes only the entry under the bare workflow id, which exists afterwards. Every other key keeps its presence and value. |
| BasicNode.BasicReadsOwn | prompt_iterator.py:349-353 | A call reads only the entry under the bare workflow id. On two dictionaries that agree at that key, it has the same outcome and leaves the same entry there. |
| BasicNode.BasicSelection | prompt_iterator.py:349-389 | Creation and reset start at (0, 0), and an existing entry is read as stored. Manual and single do not move the cursor; other modes advance it with wrap-around. The reply holds the prompt, the filename, and the status with the post-advance iteration. |
| BasicNode.BasicNeverFails | prompt_iterator.py:360-374 | While the count is unchanged since creation or reset, a call returns normally with index < N and leaves the stored index < N. |
| BasicNode.BasicStaleIndex | prompt_iterator.py:366-374 | A stored index ≥ N in a sequential call raises `IndexError` after the cursor has advanced. |
| BasicNode.BasicKeepsValid | prompt_iterator.py:350-371 | The basic node only touches `index` and `iteration`, so the dictionary stays valid. |
| BasicNode.BasicRepeatCursor | prompt_iterator.py:366-371 | After k ≥ 1 sequential calls from a new id, the cursor is `LoopRun((0, 0), N, k)`. |
| BasicNode.BasicSequentialWalk | prompt_iterator.py:366-371 | Sequential call number k from a new id returns index `LoopRun((0,0),N,k).index`, which is k mod N by `LoopRunFromStart`, and leaves the cursor one step further. |
| AdvancedNode.AdvancedStepNoPrompts | prompt_iterator.py:509-510 | The six-value error tuple with `""` comes back if and only if the batch is empty, and then the dictionary is unchanged. |
| AdvancedNode.AdvancedNoPrompts | prompt_iterator.py:505-510 | All-whitespace prompt text gives the error tuple with the dictionary unchanged, and only such text does. |
| AdvancedNode.AdvancedIsolation | prompt_iterator.py:514-526 | A call writes only `{id}_advanced`, which exists afterwards. Every other key keeps its presence and value. |
| AdvancedNode.AdvancedReadsOwn | prompt_iterator.py:514-526 | A call reads only `{id}_advanced`. On two dictionaries that agree at that key, it has the same outcome and leaves the same entry there. |
| AdvancedNode.AdvancedNeverFails | prompt_iterator.py:545-622 | From a new, reset or ready entry, the call returns with index < N and a seed in range, and leaves the entry ready (including `direction` ±1). |
| AdvancedNode.AdvancedSelection | prompt_iterator.py:541-575 | Per mode and `loop_mode`: clamp, 0, shuffle then read then advance, or read then move by loop, once or ping-pong. `direction` changes only in ping-pong, `random_order` only in random mode, and `base_seed` never. |
| AdvancedNode.AdvancedReply | prompt_iterator.py:577-637 | The reply holds the composed and stripped prompt, the advanced filename rule and the status. The seed comes from `AdvancedSeed`; in random seed mode both output and stored seed are the draw. |
| AdvancedNode.AdvancedFaults | prompt_iterator.py:541-578 | Ping-pong without `direction` and random without `random_order` raise `KeyError` after creation or reset only. A random index past the order's end raises `IndexError` and keeps the shuffle; a stale order element raises after the shuffle and the advance. A stale sequential index raises `IndexError` after the loop move, or with no move in `once`. |
| AdvancedNode.AdvancedKeepsValid | prompt_iterator.py:514-622 | Every call keeps every entry valid. |
| AdvancedNode.AdvancedStepReady | prompt_iterator.py:514-622 | A call without shuffling keeps the dictionary valid and the entry ready for the same batch. |
| AdvancedNode.AdvancedRepeatReady | prompt_iterator.py:514-622 | After any number of such calls from a new id, the dictionary is valid and the entry ready. |
| AdvancedNode.AdvancedPingPongStep | prompt_iterator.py:563-571 | One ping-pong call moves the stored (index, iteration, direction) one `PingPongNext` step. |
| AdvancedNode.AdvancedPingPongRun | prompt_iterator.py:557-571 | After k ping-pong calls from a new id, the entry holds `PingPongRun((0,0,+1), N, k)`. |
| AdvancedNode.AdvancedPingPongWalk | prompt_iterator.py:557-571 | Ping-pong call number k returns the index read before moving. For N = 4 the reads are 0, 1, 2, 3, 2, 1, 0, 1. |
| AdvancedNode.AdvancedBatchStep | prompt_iterator.py:611-622 | One sequential `loop` call under `increment_batch` moves the stored cursor and seed one `BatchNext` step. |
| AdvancedNode.AdvancedBatchRun | prompt_iterator.py:572-622 | After k such calls from a new id with a given seed, cursor and seed are `BatchRun`. So the seed moves once at the start of each pass after the first. |
| Workflow.KeysNeverCollide | prompt_iterator.py:177 | `{id}_dynamic` never equals `{id'}_advanced`, and each suffix form is injective in the id. So the two seeded nodes never share an entry. |
| Workflow.PreparedDefaults | prompt_iterator.py:515-539 | Creation and reset give index 0, iteration 0, direction 1 (advanced node) and the identity order. A non-negative seed is used for both seeds. Otherwise creation draws two seeds and a reset draws one for both. Without a reset an existing entry is kept as it is. |
| Workflow.PreparedReady | prompt_iterator.py:177-199 | The prepared entry is valid. It is ready for N prompts when new, reset or ready before. |
| Workflow.DynamicSelectIsLoop | prompt_iterator.py:206-221 | The dynamic node selects like the advanced node with `loop_mode` `loop`. |
| Workflow.RandomPickReady | prompt_iterator.py:542-555 | On a ready entry random selection succeeds. `random_order` becomes the shuffled permutation, the index returned is its element at the old `index` (below N), and the cursor advances with wrap-around. |
| Workflow.AdvancedSelectReady | prompt_iterator.py:545-575 | No advanced selection fails on a ready entry. The index is < N, the seed is untouched and the entry stays ready. |
| Workflow.DynamicSelectReady | prompt_iterator.py:205-221 | The same for the dynamic node. |
| Workflow.AdvancedSelectValid | prompt_iterator.py:541-575 | Every selection keeps an entry valid, including the shuffle keeping `random_order` a permutation. |
| Selection.Clamp | prompt_iterator.py:362 | The result is < N. It is the request when the request is in range, 0 below the range and N-1 above it. |
| Selection.LoopNext | prompt_iterator.py:369-371 | The index moves to the next position, or to 0 from the last one, so it stays < N. The iteration count rises by one exactly when the new index is 0. |
| Selection.PingPongNext | prompt_iterator.py:563-571 | The index stays in [0, N-1] and the direction stays ±1. Between the ends the index moves one step in the direction. For N ≥ 2, landing on N-1 turns the direction to -1 and landing on 0 turns it to +1. The iteration count rises exactly when the move lands on 0 heading up. |
| Selection.LoopRunFromStart | prompt_iterator.py:572-575 | From (0, it), call k reads index k mod N and iteration it + k div N: 0, 1, …, N-1, 0, … with one count per wrap. |
| Selection.OnceRunClosed | prompt_iterator.py:560-562 | `once` after k calls has index min(i+k, N-1), and its iteration is unchanged. |
| Selection.PingPongPhaseStep | prompt_iterator.py:563-571 | One ping-pong step moves the phase of the 2(N-1) cycle by one, counting an iteration at the wrap. |
| Selection.PingPongRunFromStart | prompt_iterator.py:557-571 | From (0, it, +1) with N ≥ 2, call k reads `Bounce(k mod 2(N-1))` with iteration it + k div 2(N-1) and the matching direction. |
| Selection.PingPongSingleItem | prompt_iterator.py:563-571 | With N = 1 the index stays 0, the direction alternates, and the count rises every second call. |
| Selection.PingPongFourItems | prompt_iterator.py:557-571 | With four prompts the first eight reads are 0, 1, 2, 3, 2, 1, 0, 1. |
| Selection.Identity | prompt_iterator.py:182 | `list(range(n))` is a permutation of 0..n-1 with element k at position k. |
| Selection.Shuffle | prompt_iterator.py:203 | The shuffle keeps the length, and position k holds the old element at `perm[k]`. A permutation of 0..N-1 stays a permutation of 0..N-1. |
| Seeds.SeedPolicy | prompt_iterator.py:606-622 | The policy for both nodes (the dynamic node's is lines 241-258):<br>• Fixed outputs and keeps the seed.<br>• Increment outputs and stores (seed+1) mod 2^31, so 2^31-1 goes to 0.<br>• Batch increments only at index 0 with a positive iteration.<br>• Random outputs the draw; only the advanced node stores it.<br>All values stay in [0, 2^31-1]. |
| Seeds.PromptSeedRunClosed | prompt_iterator.py:620-622 | k `increment_prompt` calls move the seed to (seed + k) mod 2^31. |
| Seeds.BatchRunFromStart | prompt_iterator.py:613-614 | Under `increment_batch` with wrap-around over N ≥ 2 prompts from (0, 0), after q passes and r calls the cursor is (r, q). The seed has risen `BatchIncrements(q, r)` times: never in the first pass, then once at each pass start. |
| Seeds.BatchSeedOfCall | prompt_iterator.py:248-258 | Under `increment_batch` over N ≥ 2 prompts from (0, 0), call k (from 0) outputs the starting seed plus k div N, modulo 2^31. |
| Seeds.BatchThreePrompts | prompt_iterator.py:248-250 | With three prompts the seed is unchanged after up to 3 calls. It rises by one at the 4th, 7th and 10th calls, the first call of each later pass. |
| Seeds.BatchSingleItem | prompt_iterator.py:613-614 | With one prompt, `increment_batch` raises the seed by one on every call, the first one included, so after k calls from (0, 0) the cursor is (0, k) and the seed is seed + k modulo 2^31. |
| Naming.AutoNameRecoversIndex | prompt_iterator.py:382 | `{base}_{i:03d}` is the base, `_` and digits reading back as i. Below 1000 it has exactly three digits. |
| Naming.AutoNameInjective | prompt_iterator.py:595 | Distinct indices give distinct auto names. |
| Naming.RenderConcat | prompt_iterator.py:589-593 | Rendering distributes over concatenated templates. |
| Naming.RenderIgnoresSuffix | prompt_iterator.py:589-593 | A template without `{suffix}` does not depend on the suffix value. |
| Naming.TemplateMatchesAutoName | prompt_iterator.py:587-595 | The template `{base}_{index:03d}` gives the same name as index mode. |
| Naming.TemplateSuffixShape | prompt_iterator.py:588-592 | The `{suffix}` value is the list entry (or "" past the end) with all leading underscores removed, so it never starts with `_`. |
| Naming.DoubleUnderscoreSuffix | prompt_iterator.py:592 | `"__back"` gives the suffix `"back"`. |
| Naming.BasicNameIsListMode | prompt_iterator.py:377-382 | The basic node's filename rule is the advanced node's `list` mode. |
| Naming.DynamicAgreesWithAdvanced | prompt_iterator.py:227-238 | The dynamic and advanced rules agree on every mode but `list`, which the dynamic node treats as auto index. |
| Naming.AdvancedFallbacks | prompt_iterator.py:582-595 | A list too short for the index, or an empty suffix list, falls back to the auto name, which is never shorter than base + 4. |
| Naming.SuffixListExample | prompt_iterator.py:584-586 | Base `character` with suffixes `_front`, `_left` gives `character_front`, then `character_left`. |
| Messages.Compose | prompt_iterator.py:579 | The composed prompt is trimmed, and it is empty exactly when prepend + prompt + append is all whitespace. |
| Messages.ComposeKeepsText | prompt_iterator.py:579 | With no affixes the parsed prompt comes back unchanged. Affixes whose outer ends are not whitespace survive whole. |
| Messages.ComposeExample | prompt_iterator.py:579 | `"masterpiece, " + "a cat" + "  "` composes to `"masterpiece, a cat"`. |
| Messages.CounterReadBack | prompt_iterator.py:385 | `Prompt i/N` followed by non-digit text determines i, N and the text. |
| Messages.BasicStatusShape | prompt_iterator.py:385-387 | Every basic status starts with the counter, followed by text that does not start with a digit. |
| Messages.BasicStatusReadBack | prompt_iterator.py:385-387 | Equal basic statuses have the same position and count, and agree on sequential mode; a sequential status also fixes the shown iteration. |
| Messages.DynamicStatusReadBack | prompt_iterator.py:261-265 | Equal dynamic statuses agree on position, count, and whether the mode is sequential or random, and in sequential mode on the iteration. |
| Messages.AdvancedStatusReadBack | prompt_iterator.py:598-604 | Equal advanced statuses agree on position, count and mode, and in sequential mode on the iteration and on ping-pong. |
| Messages.DecimalInjective | prompt_iterator.py:385 | Equal `str(n)` renderings come from equal numbers. |
| Text.Strip | prompt_iterator.py:341 | `strip()` gives a trimmed result that sits in the input with only whitespace before and after it. It is empty exactly when the input is all whitespace, and trimmed input is unchanged. |
| Text.StripUnique | prompt_iterator.py:341 | Any trimmed string that sits in the input with only whitespace around it is the strip, so the two properties of `Strip` fix its result. |
| Text.StripExample | prompt_iterator.py:341 | `" a b "` strips to `"a b"`: the spaces at both ends go and the inner one stays. |
| Text.StripNoNewline | prompt_iterator.py:341 | Stripping introduces no newline. |
| Text.Keep | prompt_iterator.py:341 | Each kept piece is non-empty and trimmed, and no more pieces come out than went in. |
| Text.ParseLines | prompt_iterator.py:341 | Every parsed entry is non-empty and trimmed. |
| Text.ParseLinesNoNewline | prompt_iterator.py:505-507 | Every parsed entry is a single line. |
| Text.KeepConcat | prompt_iterator.py:341 | The filter keeps input order: it distributes over concatenation. |
| Text.ParseJoinRoundTrip | prompt_iterator.py:341 | A list of non-empty, trimmed, single-line entries written one per line parses back to itself. |
| Text.SplitJoin | prompt_iterator.py:341 | `split('\n')` inverts joining with newlines for newline-free pieces. |
| Text.ParseLinesEmpty | prompt_iterator.py:341-345 | The parse is empty if and only if the text is all whitespace. |
| Text.ParseOptionalIsParseLines | prompt_iterator.py:342 | The `if filenames else []` guard gives the same list as parsing directly. |
| Text.LStripUnderscores | prompt_iterator.py:592 | `lstrip('_')` is a suffix of its input, and it removed only underscores. The result does not start with `_`. |
| Text.Decimal | prompt_iterator.py:385 | `str(n)` is a non-empty digit string without a leading zero. |
| Text.DecimalRoundTrip | prompt_iterator.py:385 | `str(n)` reads back as n. |
| Text.DecimalWidth | prompt_iterator.py:382 | `str(n)` has 1, ≤ 2 or ≤ 3 digits exactly when n < 10, < 100 or < 1000. |
| Text.Pad3RoundTrip | prompt_iterator.py:382 | `{n:03d}` is all digits and reads back as n. It is exactly three digits below 1000, and `str(n)` from 1000 on. |

## Left out

- The host plugin interface is not modelled: `INPUT_TYPES`, `IS_CHANGED`, `RETURN_TYPES`/`RETURN_NAMES`, `NODE_CLASS_MAPPINGS` and `__init__.py`. They only declare inputs and outputs to the host. The one fact the model takes from them is the `generation_seed` bound of 2^31-1 (lines 107-113, 460-466), which is a `requires` on the seeded methods.
- `debug_info` is not modelled. It is built with `json.dumps` (lines 625-635) but never returned (line 637), although `RETURN_TYPES` lists a seventh output.
- Python's random generator is replaced by the `RandomDraws` parameter.
  - The store methods require the draws to be in [0, 2^31-1], as `randint(0, 2147483647)` guarantees.
  - In random mode they also require the shuffle to be a permutation of the stored order's length (`DynamicDrawsFit`, `AdvancedDrawsFit`), as `random.shuffle` guarantees.
  - Nothing is said about the distribution.
- `str.format` templates are a sequence of tokens: literal text, `{base}`, `{index}`, `{index:03d}` and `{suffix}`. Other format specifications and malformed templates, which raise in Python, are not modelled.
- `str.strip` and `str.isspace` use a fixed set of whitespace characters, the ones Python treats as whitespace, listed in `Text.IsSpace`. There is no Unicode database.
- Non-string `prompt_k` values (the `isinstance` check at line 165) are not modelled: keyword inputs are a map from names to strings.
- Unknown `filename_mode`, `loop_mode` and `seed_mode` strings are not modelled separately. They take the default branch in the code and are folded into `AutoIndex`, `Loop` and `FixedSeed`. Unknown `mode` strings are `Unlisted`.
- `Selection.IsPermutation` is stated as length, range and injectivity rather than as a multiset, which is equivalent for a sequence over 0..n-1.
- `test_nodes.py` and `test_seed.py` are print-only scripts without assertions. Only the `increment_batch` run of `test_seed.py:42-55` is stated, as `DynamicNode.DynamicBatchThreePrompts`; the rest is not modelled. `test_nodes.py:68` passes a `random_seed` keyword the advanced node does not accept.
- `ITERATOR_STATE` grows without bound and has no locking. Thread safety is not modelled; calls are sequential.
- BasicNode.BasicSequentialWalk: proved from a new workflow id only. A reset starts from the same (0, 0) cursor but is not covered by the lemma.
- AdvancedNode.AdvancedPingPongWalk: proved from a new workflow id only, and with the seed and filename parts of the reply not restated (those are in `AdvancedReply`).
- AdvancedNode.AdvancedBatchRun: proved only from a new workflow id, with a non-negative `generation_seed`, under the `loop` policy. A negative `generation_seed` (a drawn initial seed) is not covered.
- AdvancedNode.AdvancedRepeatReady: covers only repeated sequential calls from a new workflow id. Random mode needs a fresh permutation per call; `RandomPickReady` and `AdvancedNeverFails` cover it one call at a time.
- DynamicNode.DynamicBatchRun: proved only from a new workflow id, with a non-negative `generation_seed`, in `sequential` mode. Other unlisted modes take the same branch but are not covered.
- DynamicNode.DynamicSequentialWalk: proved from a new workflow id only, with a non-negative `generation_seed`. The filename and status parts of the reply are left to `DynamicReply`.
- DynamicNode.DynamicRepeatReady: covers only repeated sequential calls from a new workflow id. Random mode is covered one call at a time by `DynamicNeverFails`.
