# digitalregistrar pipeline core in Dafny

This project models the core of digitalregistrar, a pathology-report
registrar, together with properties proved about that core. The registrar
works in four steps:

1. It splits a free-text report into paragraphs.
2. A language model decides whether the report is an eligible primary cancer
   excision and which organ it concerns.
3. It renders the report as rough JSON.
4. It runs every organ-specific extractor listed for that organ and merges
   their outputs into one `cancer_data` dict.

The extractors return DSPy predictions. These are normalised into plain
dicts by a small library of dumpers.

The Dafny modules follow the Python files:

- `Values` (values.dfy): the Python values the code handles (`None`, booleans, numbers,
  strings, dates, lists/tuples/sets, dicts and other mappings, DSPy
  predictions, objects with `.dict()`/`.to_dict()`). Dicts are association
  lists. The file also holds the three dict operations the code uses:
  `d[k] = v` (`Put`), `d.update(o)` (`Update`) and a comprehension (`FromPairs`).
- `Common` (common.dfy): the organ category literal of the classification
  signature in `models/common.py`.
- `ModelList` (modellist.dfy): the `organmodels` registry of `models/modellist.py`,
  organ by organ, with its extractor names in order.
- `PredictionDump` (predictiondump.dfy): `util/predictiondump.py`. It holds:
  - `to_plain` and `dump_prediction_plain`;
  - `dump_prediction`, both as a specification function (`Dump`) and as a
    recursive method with the source's loops (`DumpPrediction`);
  - `dump_many_predictions`.
- `Pipeline` (pipeline.dfy): `pipeline.py`. It holds the paragraph split
  (`str.split`, `str.strip`), `CancerPipeline.forward` (the `Forward` method
  and its `ForwardDoc`/`ForwardLog` specifications) and `run_cancer_pipeline`.

The language-model calls are parameters, not models. A `Backend` holds:

- the classifier, as a function of the paragraphs;
- the JSON renderer, as a function of the paragraphs and the category;
- the extractor classes visible by name, as a map from name to function of
  the full report and the JSON rendering.

Each returns a value or the message of the exception it raised. Objects with
export methods carry the result of `.dict()` and of `.to_dict()`. None
stands for a method that is missing or raises, since the code treats the two
alike.

Where the two normalisers differ, the model follows the code:

- `to_plain` drops only the `_lm_usage`, `_inputs` and `_completions` fields
  of a prediction. Any other `_`-prefixed field survives, and it is only
  dropped from dicts. `PredictionKeepsOtherPrivateKeys` shows the effect.
  `dump_prediction` drops every `_`-prefixed field under its defaults.
- `to_plain` tries `.dict()` before `.to_dict()`; `dump_prediction` tries them
  the other way round.
- `forward` copies the classifier's `cancer_category_others_description` into
  the answer as given, whatever the category.

## Model

| member | source | states |
|---|---|---|
| Values.Put | util/predictiondump.py:118-123 | `d[k] = v`: the keys become the old keys plus `k`. `k` maps to `v` and every other key keeps its value. A new key is appended, an existing one keeps its place. |
| Values.PutShape | util/predictiondump.py:110-125 | Assigning a key keeps every existing key at its position, keeps a real dict a real dict, and introduces no pair but `(k, v)`. |
| Values.Update | pipeline.py:103 | `d.update(o)` stores each pair of `o` in order. The keys become the union of both key sets, the old keys keep their positions, a real dict stays real, and every pair comes from `d` or `o`. |
| Values.UpdateLookup | pipeline.py:103 | After `d.update(o)` with `o` a dict, a key of `o` has `o`'s value and any other key keeps `d`'s, so the last write wins. |
| Values.UpdateFresh | pipeline.py:103 | Updating with only new keys appends them in order. |
| Values.FromPairs | util/predictiondump.py:53-54 | A dict comprehension yields a real dict over exactly the keys of its pairs, each entry one of the pairs. |
| Values.FromPairsOfDict | util/predictiondump.py:58-59 | A comprehension over the pairs of a real dict gives those pairs back unchanged. |
| Values.FilterMapLookup | util/predictiondump.py:58-59 | A filtered comprehension over a real dict gives a real dict whose keys are among the input keys. A key's value is the mapped input value if the filter keeps the pair, and the key is absent otherwise. |
| Values.FilterMapFrom | util/predictiondump.py:53-54 | Every pair of a filtered comprehension comes from a kept input pair with its value mapped. |
| Common.CategoryName | models/common.py:63 | The text of each of the eleven values of the `cancer_category` literal (the `Category` datatype), with "others" last. |
| Common.ParseCategory | models/common.py:63 | The check the literal type puts on the classifier's answer: a text names a category only when it is one of the eleven literal texts. |
| Common.ParseName | models/common.py:63 | Every category of the literal reads back from its text as that category. |
| Common.NameOfParse | models/common.py:63 | Only the eleven texts of the literal read as a category, each as the category it names. |
| ModelList.Get | pipeline.py:93 | `organmodels.get(category, [])` over the `OrganModels` table of models/modellist.py: the list of the first row with that key, or the empty list when no row has it. |
| ModelList.KeysDistinct | models/modellist.py:1-13 | No organ key of the table is listed twice. |
| ModelList.KeysAreNames | models/modellist.py:1-13 | The table's keys are, in order, the category texts of the ten organs, each with a non-empty list. |
| ModelList.OthersUnmapped | models/modellist.py:1-13 | "others" is not a key of the table, so its lookup gives the empty list. |
| ModelList.GetAt | models/modellist.py:1-13 | `organmodels.get(organ, [])` finds each organ's own list, since no organ key is repeated. |
| ModelList.RegistryCoversOrgans | models/modellist.py:1-13 | The extractor list of a category's text is non-empty exactly when the category is not "others". |
| ModelList.RegistryNonnestedFirst | models/modellist.py:1-13 | Every organ's list is non-empty and starts with its `...Nonnested` extractor, whose name begins with that organ's tag. |
| ModelList.TagsOfLists | models/modellist.py:1-13 | Every extractor name in an organ's list begins with one of that organ's tags ("Lu" for lung, "Br" or "DC" for breast, and so on). |
| ModelList.RegistryNonnestedOnlyFirst | models/modellist.py:1-13 | No entry after the first of any list is a `...Nonnested` extractor. |
| ModelList.RegistryCoreExtractors | models/modellist.py:1-13 | Every organ's list runs staging, margins and lymph-node extractors consecutively, after the first entry. |
| ModelList.RegistryIdsDistinct | models/modellist.py:1-13 | No extractor name appears twice, within one organ's list or across organs. |
| PredictionDump.ToPlain | util/predictiondump.py:46-74 | The inner `to_plain`, branch by branch in the source's order: primitives, predictions, mappings, collections, objects through `.dict()` then `.to_dict()`, anything else as it is. |
| PredictionDump.PrimitivesUnchanged | util/predictiondump.py:48-49 | `to_plain` returns None, booleans, numbers and strings as they are, and so does `dump_prediction` (lines 97-98) under any options. |
| PredictionDump.ToPlainPrediction | util/predictiondump.py:52-54 | A prediction becomes a dict whose pairs are its store's pairs in store order, filtered and normalised. It drops exactly the keys starting with `_lm_usage`, `_inputs` or `_completions` and normalises every other value. |
| PredictionDump.ToPlainMapping | util/predictiondump.py:57-59 | Any mapping becomes a real dict whose pairs are its items in their order, without the `_`-prefixed string keys. Every other key, non-string keys included, keeps its normalised value. |
| PredictionDump.ToPlainCollection | util/predictiondump.py:62-63 | A list, tuple or set becomes a list of the same length, element by element normalised. |
| PredictionDump.ToPlainShape | util/predictiondump.py:46-74 | `to_plain` always returns normal data: no prediction, tuple, set or foreign mapping, and every dict a real dict. Without a prediction in its input, no `_`-prefixed key is left either. |
| PredictionDump.PlainDataFixpoint | util/predictiondump.py:46-74 | Plain data (lists, real dicts without private keys, primitives, dates, objects without export methods) is unchanged by `to_plain`. |
| PredictionDump.ToPlainIdempotent | util/predictiondump.py:46-74 | Normalising twice equals normalising once for every input without a prediction inside. |
| PredictionDump.PredictionKeepsOtherPrivateKeys | util/predictiondump.py:52-59 | A prediction field `_note` survives the first pass and is dropped by the second, so idempotence stops at predictions. |
| PredictionDump.DumpPredictionPlain | util/predictiondump.py:76-79 | The answer is always a real dict. It is the normalised value when that is a dict, and otherwise `{"value": normalised}`. |
| PredictionDump.ToJsonSafe | util/predictiondump.py:23-38 | `_to_json_safe` leaves no date behind and returns every value that is not a date as it is. |
| PredictionDump.ToJsonSafeIdempotent | util/predictiondump.py:23-38 | Applying `_to_json_safe` to its own result changes nothing. |
| PredictionDump.ExportMethodOrder | util/predictiondump.py:66-69 | For an object with both export methods, `to_plain` follows `.dict()` while `dump_prediction` (lines 185-188) follows `.to_dict()`. |
| PredictionDump.Dump | util/predictiondump.py:81-199 | `dump_prediction`, branch by branch in the source's order: primitives, predictions, real dicts, collections, objects through `.to_dict()` then `.dict()`, and `_to_json_safe` for the rest. |
| PredictionDump.DatesBecomeIsoText | util/predictiondump.py:23-38 | `_to_json_safe` turns a date into its ISO text and leaves the other modelled values alone. `to_plain` leaves a date as it is. |
| PredictionDump.DumpPredictionFields | util/predictiondump.py:107-125 | A prediction dumps to a real dict whose pairs are its store's pairs in store order, restricted to the store fields that are not listed, not private when private keys are excluded, and not vetoed. Each field's value is dumped in turn. |
| PredictionDump.DumpMappingFields | util/predictiondump.py:154-170 | A dict dumps to a real dict whose pairs are its kept items in their order. Non-string keys are always kept. A listed key is dropped even when private keys are kept. Kept values are dumped. |
| PredictionDump.DumpCollection | util/predictiondump.py:173-182 | A list, tuple or set dumps to a list of the same length, element by element. |
| PredictionDump.DumpShape | util/predictiondump.py:81-199 | A mapping that is not a real dict fails the test at line 154 and is returned unchanged at line 199, together with everything inside it. Everywhere else `dump_prediction` leaves no prediction, tuple, set or date, every dict is real, and every string key it keeps passes the key filter. |
| PredictionDump.DumpFixpoint | util/predictiondump.py:81-199 | Without a veto predicate, already-dumped data is unchanged by another dump. |
| PredictionDump.DumpIdempotent | util/predictiondump.py:81-199 | Without a veto predicate, dumping twice equals dumping once, for every input including predictions. |
| PredictionDump.DumpAgreesWithToPlain | util/predictiondump.py:81-95 | On JSON-shaped data, `dump_prediction` with its defaults and `to_plain` give the same result. |
| PredictionDump.DumpPrediction | util/predictiondump.py:81-199 | The recursive method returns exactly `Dump(v, o)`. |
| PredictionDump.DumpStoreLoop | util/predictiondump.py:110-125 | The loop assigning `out[k]` field by field builds the dict of the kept, dumped store fields. |
| PredictionDump.DumpEntriesLoop | util/predictiondump.py:155-170 | The loop assigning `out[k]` item by item builds the dict of the kept, dumped items. |
| PredictionDump.DumpListLoop | util/predictiondump.py:173-182 | The comprehension builds the list of dumped elements. |
| PredictionDump.KeyedDumps | util/predictiondump.py:218-223 | The keyed mapping: for each prediction in order, `mapping[key] = dump` when the key function gives a key for it and its position. |
| PredictionDump.KeyedDumpsKeys | util/predictiondump.py:218-223 | The keyed mapping is a real dict whose keys are exactly the keys the key function returned. |
| PredictionDump.KeyedDumpsLastWins | util/predictiondump.py:218-223 | When two predictions get the same key, the key maps to the dump of the last one. |
| PredictionDump.DumpManyPredictions | util/predictiondump.py:202-226 | Without a key function the value is the list of dumps in input order. With one it is the keyed mapping. |
| PredictionDump.DumpManyAsWritten | util/predictiondump.py:216-226 | `dump_many_predictions` as written: the dumps come from a first pass over the input, and the keyed branch pairs them with a second pass, which is empty for a one-shot iterator. |
| PredictionDump.AsWrittenAgreesOnLists | util/predictiondump.py:216-223 | On a list input, the code as written gives the intended result. |
| PredictionDump.OneShotKeyedDumpIsEmpty | util/predictiondump.py:216-223 | On a one-shot iterator with a key function, the code as written returns an empty mapping, although the intended result holds the key. |
| Pipeline.Strip | pipeline.py:72 | `str.strip()` removes only whitespace, and only from the two ends. What is left neither starts nor ends with whitespace. |
| Pipeline.StripEmpty | pipeline.py:72 | A piece strips to the empty string exactly when it is all whitespace. |
| Pipeline.StripIdempotent | pipeline.py:72 | Stripping a stripped string changes nothing. |
| Pipeline.Split | pipeline.py:71 | `report.split('\n\n')`: at least one piece, and the first piece is a prefix of the report that is empty only for an empty report or one starting with the separator. |
| Pipeline.SplitSpec | pipeline.py:71 | Joining the pieces with "\n\n" gives the report back. No piece holds "\n\n", and no piece but the last ends in a newline, which together fix Python's left-to-right split. |
| Pipeline.KeepParagraphs | pipeline.py:72 | The comprehension keeping the stripped non-blank pieces, in order; it never yields more paragraphs than pieces. |
| Pipeline.Paragraphs | pipeline.py:71-72 | The paragraphs of a report: split at "\n\n", then strip each piece and keep the non-blank ones. |
| Pipeline.ParagraphsExample | pipeline.py:71-72 | "A\n\nB\n\n  \n\nC" splits into "A", "B", "  " and "C", and its paragraphs are "A", "B" and "C". |
| Pipeline.KeepParagraphsSpec | pipeline.py:72 | The paragraphs are the non-blank pieces, each stripped, in order. A single piece gives its strip, or nothing when it is all whitespace, and two runs of pieces give the paragraphs of the first run followed by those of the second. The count is the number of pieces minus the blank ones, and each paragraph is non-empty and already stripped. |
| Pipeline.KeepParagraphsAppend | pipeline.py:72 | The comprehension goes piece by piece: two runs of pieces give the paragraphs of the first run followed by those of the second. |
| Pipeline.ExtractorsFor | pipeline.py:93 | The extractor names are the registry's list for the category, empty exactly when there is no category or it is "others". |
| Pipeline.RunExtractor | pipeline.py:94-106 | A name runs to nothing when unknown, to a failure when the call raises, and otherwise to the result of `dump_prediction_plain`, which is always a real dict. |
| Pipeline.JsonReport | pipeline.py:86-91 | The rough JSON rendering: the renderer's output, or `{}` when the call raises. |
| Pipeline.Absorb | pipeline.py:100-106 | One extractor's effect on `cancer_data`: `update` with its normalised dict when it ran, no change when it was missing or raised. |
| Pipeline.Merge | pipeline.py:93-106 | `cancer_data` after the loop: the outcomes absorbed one by one, in the registry's order, starting from `{}`. |
| Pipeline.MergeKeys | pipeline.py:93-106 | `cancer_data` is a real dict holding exactly the keys the extractors returned. |
| Pipeline.MergeLastWriteWins | pipeline.py:103 | When extractors return the same key, the last one to return it decides its value. |
| Pipeline.MergeSkipsIdle | pipeline.py:94-106 | An unknown or failing extractor name has no effect on `cancer_data`. |
| Pipeline.EligibleDocFields | pipeline.py:75-80 | An eligible report's answer has exactly the four fields `True`, the category text or None, the description as given, and the merged data. |
| Pipeline.NotEligibleDocFields | pipeline.py:112-116 | Any other report gets exactly three fields, `False`, None and `{}`, and no description field. |
| Pipeline.ForwardCancerData | pipeline.py:74-108 | For an eligible report the answer holds the merged extractor data. With no category or "others", no extractor runs and `cancer_data` is empty. |
| Pipeline.ForwardDoc | pipeline.py:63-118 | What `forward` returns: the classifier's exception, the three-field answer for a report that is not eligible, or the four-field answer with the merged extractor data. |
| Pipeline.ForwardLog | pipeline.py:63-118 | What `forward` logs: the report header, then eligibility, the category line and one or two events per extractor name. |
| Pipeline.Forward | pipeline.py:63-118 | The method returns `ForwardDoc` and logs `ForwardLog`. A classifier exception propagates, a renderer exception becomes `{}`, and an unknown or failing extractor is logged and skipped. |
| Pipeline.RunExtractors | pipeline.py:93-106 | The extractor loop builds the merge of the outcomes and logs one not-found event, or one processing event plus an error event on failure, per name. |
| Pipeline.RunCancerPipeline | pipeline.py:133-143 | `run_cancer_pipeline` succeeds exactly when `forward` does, returning its answer with the elapsed time between the two clock readings. Otherwise it passes on the exception. |

## Left out

- The language-model calls (`dspy.Predict` over the signatures, their prompts and output parsing) are parameters of the model. So are the extractor classes found by name in the module's globals.
- Console output (`print`, including the JSON text of a non-eligible answer), log message wording and the `time.strftime` timestamp in the per-extractor log line are not modelled. The log is a sequence of events.
- A name found in the globals that is not a signature class is not modelled. There `dspy.Predict(cls)` and `cls.__name__` would raise outside the `try`, and the extractor map holds only extractors.
- `setup_pipeline`, the `__main__` block, `experiment.py`, `util/logger.py` and the model-loading code are not part of this model.
- The pydantic and dataclass branches of `dump_prediction` are left out, because those libraries are not modelled. So are the `Decimal` and numpy cases of `_to_json_safe`, since floats are reals here.
- `dump_many_predictions` returns the value handed to `json.dumps`, not the JSON text. Only the keyed branch's second pass distinguishes a list from a one-shot iterator.
- PredictionDump.ToPlain: exceptions raised while normalising (such as `startswith` on a non-string store key) are not modelled. Store keys are strings and every export method either returns a value or counts as missing.
- PredictionDump.Dump: a veto predicate or key function that raises is not modelled, since both are total functions here.
- PredictionDump.Dump: a mapping that is not a real `dict` is assumed to have no `.to_dict()` or `.dict()` method. Such a mapping fails the `dict` test at line 154, so the source would dump it through an export method at lines 185-196 when it has one. The model passes it to `_to_json_safe`, which returns it unchanged.
- A set's elements are a sequence in the set's iteration order, which Python does not fix.
- Pipeline.Forward: the predictor objects `CancerPipeline.__init__` creates are never reassigned, so the pipeline is a `Backend` value, not a class. `cancer_data` is built in a local and placed in the answer at the end. Nothing else can observe the in-place update of `output_report["cancer_data"]`, so the answer is the same.
- Pipeline.RunCancerPipeline: `time.perf_counter` is replaced by two clock readings passed in, and the model does not assume they are monotonic.

## Findings

| source | as written | input that shows it | evidently intended | confidence | as-written member | corrected member |
|---|---|---|---|---|---|---|
| util/predictiondump.py:216-223 | The keyed branch zips `preds` again after the list comprehension has already iterated it. A generator is exhausted by then, so the zip is empty. | `dump_many_predictions((p for p in [pred]), key_fn=lambda p, i: "a")` gives `{}` | `{"a": dump_prediction(pred)}`: read the input once and pair each prediction with its dump | high, not executed | PredictionDump.OneShotKeyedDumpIsEmpty | PredictionDump.DumpManyPredictions |
