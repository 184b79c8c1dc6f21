# Agentless localization combiner and provider gateway, modelled in Dafny

This project models two pieces of the Agentless repair pipeline.

**The file-level localization combiner** (`agentless/fl/combine.py`). For each
issue instance it merges two ranked lists of candidate files: one from the
model and one from embedding retrieval. It takes the first `top_n` files of
each list and counts them with a `Counter`. It returns the distinct files by
vote count, highest first. It skips instances already present in the output
file and appends one record for every other instance.

- `FileRanking` (file_ranking.dfy) holds the vote itself:
  - Python's `s[:n]` slice, negative `n` included;
  - the `Counter`, as its keys in insertion order plus a multiset of votes;
  - `most_common()`, as a stable sort by count, highest first.
- `Combine` (combine.dfy) holds the records and the output file. The output
  file is an object whose record list grows by `Append`. It also holds the
  imperative loops: the skip set, the two counting loops and the main loop.
  `Process` is the specification function the main loop is proved against.
- `Sequences` (sequences.dfy) holds `FirstIndex`, the first position of a
  value in a sequence. It states the counter's encounter order and finds the
  newline where a string is split.

**The provider gateway** (`agentless/util/api_requests.py`).

- `ApiConfigs` (api_configs.dfy) holds the three `create_*_config` record
  builders. This includes the Vertex builder's loop, which flattens a message
  list into one string: user contents are appended, system contents are
  inserted at the front.
- `ApiEngines` (api_engines.dfy) holds the three `request_*_engine` retry loops
  and the `VertexAIResponse` / `VertexAIUsage` classes. The provider client is
  an oracle `call: nat -> CallOutcome`: `call(i)` is what the client does on
  attempt `i`. Each engine returns how many attempts it made and the delays it
  would have slept, in order.

The waits between attempts are fixed per engine: 5 s or 1 s (ChatGPT),
`10 * retries` s (Anthropic) and `min(5 * (retries + 1), 60)` s (Vertex). The
Vertex wait is commented as exponential backoff at
agentless/util/api_requests.py:251, but it grows linearly and is capped at
60 s; the model follows the code.

Every builder and engine has the source's default arguments: `temperature` 1,
`batch_size` 1, the "You are a helpful assistant." system message, each
provider's default model, `max_retries` 40 and `prompt_cache` off.

## Model

| member | source | states |
|---|---|---|
| `FileRanking.Head` | agentless/fl/combine.py:48-51 | `s[:top_n]` is a prefix of `s`; its length is `min(n, len)` for `n >= 0`, and `len + n` (at least 0) for negative `n` |
| `FileRanking.Distinct` | agentless/fl/combine.py:45-52 | the counter's keys are exactly the voted files, each once, no more than the number of votes |
| `Sequences.FirstIndex` | agentless/fl/combine.py:48-52 | the first position of a voted file: it holds the file, and no earlier position does |
| `FileRanking.Counter.Add` | agentless/fl/combine.py:48-52 | `counter[loc] += 1`: the file's count rises by one, every other count is unchanged, and the keys keep their order: they gain the file at the end when it was not counted yet, and are unchanged when it was |
| `FileRanking.CounterOfAppend` | agentless/fl/combine.py:48-52 | counting the files of a list one by one with `+= 1` gives the counter of the whole list |
| `FileRanking.MostCommonKeys` | agentless/fl/combine.py:54 | `most_common()` lists exactly the counted files, each once |
| `FileRanking.DistinctInEncounterOrder` | agentless/fl/combine.py:45-52 | the counter's keys are ordered by where each file is first met: model prefix, then retrieval prefix |
| `FileRanking.Counter.MostCommon` | agentless/fl/combine.py:54 | `most_common()` (the stable sort `SortByVotes`) returns the counter's keys rearranged, with counts that never increase from one entry to the next; `SortByVotesPermutes` and `SortByVotesProperties` state the rest |
| `FileRanking.SortByVotesPermutes` | agentless/fl/combine.py:54 | `most_common()` returns a permutation of the counter's keys |
| `FileRanking.SortByVotesProperties` | agentless/fl/combine.py:54 | `most_common()` on keys in encounter order yields counts that never increase, no duplicates, and ties in encounter order (stable sort) |
| `FileRanking.CombinedLocs` | agentless/fl/combine.py:45-54 | `combined_locs` holds a file iff it is in one of the two top-`n` prefixes; it has no duplicates; its length is at most the sum of the prefix lengths |
| `FileRanking.CombinedLocsSpec` | agentless/fl/combine.py:45-54 | `combined_locs` is ordered by vote count, highest first, and equal counts keep first-encounter order (model prefix, then retrieval prefix) |
| `FileRanking.CombinedLocsIgnoresTails` | agentless/fl/combine.py:48-51 | entries after the first `top_n` of either list never change `combined_locs` |
| `Combine.Matches` | agentless/fl/combine.py:41-43 | the comprehension keeps exactly the retrieval records carrying the instance id, and its `[0]` is the first such record of the file |
| `Combine.CombineInstance` | agentless/fl/combine.py:40-67 | the record for one instance exists iff the retrieval file has a record with its id; it then carries that id, the vote of its model list against the first such retrieval record, and empty `additional_artifact_loc_file` and `file_traj` |
| `Combine.Process` | agentless/fl/combine.py:33-67 | a run writes at most one record per model record, and a run that fails names an instance that was not skipped |
| `Combine.OutputFile.Append` | agentless/fl/combine.py:56-67 | appending adds one record at the end and changes nothing else |
| `Combine.ExistingInstances` | agentless/fl/combine.py:24-31 | the skip set holds exactly the instance ids of the records already in the output file |
| `Combine.CombineLocs` | agentless/fl/combine.py:45-54 | the two counting loops followed by `most_common()` compute `CombinedLocs` of the two lists |
| `Combine.CombineFileLevel` | agentless/fl/combine.py:24-67 | the output file afterwards is the old file followed by exactly the records `Process` prescribes for the skip set read at the start; the outcome says whether the run completed or failed at a missing retrieval record |
| `Combine.ProcessStopsAtFailure` | agentless/fl/combine.py:41-43 | once an instance has no retrieval record, the failing `[0]` ends the run; later model records add nothing |
| `Combine.ProcessSpec` | agentless/fl/combine.py:33-67 | the k-th appended record belongs to the k-th instance not in the skip set. It carries that instance's id, the vote of its model list against its first retrieval record, and empty `additional_artifact_loc_file` and `file_traj`. A completed run writes one record per such instance. A failed run stops at the first such instance without a retrieval record |
| `Combine.ProcessCompletes` | agentless/fl/combine.py:40-43 | a run completes iff every instance not skipped has a retrieval record |
| `Combine.ProcessSkipsExisting` | agentless/fl/combine.py:33-38 | no appended record has an id that was already in the output file |
| `Combine.DuplicateInstanceWrittenTwice` | agentless/fl/combine.py:25-37 | the skip set is not updated inside the loop, so a new instance listed twice in the model file gets two identical records |
| `Combine.ResumeAppendsNothing` | agentless/fl/combine.py:24-38 | after a completed run, running again on the extended output file appends nothing and completes |
| `ApiConfigs.CreateChatgptConfig` | agentless/util/api_requests.py:29-56 | exactly one system message comes first, followed by `[user(message)]` for a string or by the list unchanged. `model`, `max_tokens` and `temperature` pass through, and `batch_size` becomes `n` |
| `ApiConfigs.ChatgptAddsOneSystemMessage` | agentless/util/api_requests.py:37-55 | the ChatGPT config holds exactly one system message more than the prompt did |
| `ApiConfigs.CreateAnthropicConfig` | agentless/util/api_requests.py:108-137 | a string becomes a single user message with one text block, and a list passes through. `tools` is set iff the given list is present and non-empty, and then it is that list |
| `ApiConfigs.AnthropicAddsNoSystemMessage` | agentless/util/api_requests.py:117-132 | the Anthropic config adds no system message of its own |
| `ApiConfigs.FlattenMessages` | agentless/util/api_requests.py:190-199 | the list built by append and `insert(0, …)` is the system contents reversed (later ones first), followed by the user contents in order; other roles and non-objects are dropped |
| `ApiConfigs.ContentOf` | agentless/util/api_requests.py:195-199 | `str(msg.get("content", ""))`: an absent content gives the empty string and a string content is kept as it is |
| `ApiConfigs.Join` | agentless/util/api_requests.py:200 | `"\n".join` of no parts is empty; otherwise the result starts with the first part and ends with the last; splitting it again is `SplitJoin` |
| `ApiConfigs.GetEnv` | agentless/util/api_requests.py:185-188 | `os.getenv(key, default)`: the environment's value when the variable is set, the default otherwise |
| `ApiConfigs.CreateVertexaiConfig` | agentless/util/api_requests.py:173-213 | a string prompt is sent unchanged; a list is flattened and joined with newlines; the sampling options pass through; an absent project or location comes from the environment, then from the fixed default |
| `ApiConfigs.SplitJoin` | agentless/util/api_requests.py:200 | joining non-empty lists of newline-free parts with `"\n"` is undone by splitting at newlines |
| `ApiConfigs.VertexMessageParts` | agentless/util/api_requests.py:190-200 | the Vertex prompt of a message list with newline-free contents splits back into the reversed system contents followed by the user contents |
| `ApiConfigs.VertexOfChatgptMessages` | agentless/util/api_requests.py:190-200 | the ChatGPT-shaped conversation of a string prompt reaches Vertex as system text, a newline, then the prompt |
| `ApiEngines.RequestChatgptEngine` | agentless/util/api_requests.py:64-105 | at most `max_retries` attempts (none when it is at most 0), and every attempt but the last was retried. It stops early only on a response, a bad request (raises at once) or a non-client exception (escapes). It returns None only after exhausting the attempts, and always when every attempt was retried. It never raises the missing-client error. The sleeps are 5 s for rate-limit and connection errors and 1 s otherwise |
| `ApiEngines.ChatgptDelay` | agentless/util/api_requests.py:83-100 | the ChatGPT wait is 5 s exactly for rate-limit and connection errors and 1 s for any other retried error |
| `ApiEngines.ChatgptTotalWait` | agentless/util/api_requests.py:83-100 | the ChatGPT engine's total wait is between 1 s and 5 s per retried attempt |
| `ApiEngines.MarkCacheControl` | agentless/util/api_requests.py:151-157 | marking succeeds iff the first message has a non-empty block list. It then sets `cache_control` to ephemeral on the first block only and changes nothing else |
| `ApiEngines.MarkCacheControlIdempotent` | agentless/util/api_requests.py:148-157 | re-marking the already marked config on a retry changes nothing |
| `ApiEngines.AnthropicSchedule` | agentless/util/api_requests.py:167 | the sleep after the i-th failed attempt is `10 * i` s, so the first retry waits 0 s |
| `ApiEngines.RequestAnthropicEngine` | agentless/util/api_requests.py:140-170 | at most `max_retries` attempts, and it stops at the first response. Every exception is caught. The sleeps follow `AnthropicSchedule`, one after each failed attempt, the last one included. With `prompt_cache` and a first message that cannot be marked, every attempt fails and None is returned. The caller's config ends up marked iff `prompt_cache` is set, its first block can be marked and at least one attempt was made |
| `ApiEngines.AnthropicTotalWait` | agentless/util/api_requests.py:148-168 | after k failed attempts the Anthropic engine has slept `5 * k * (k - 1)` s |
| `ApiEngines.TextPromptCacheable` | agentless/util/api_requests.py:124-132 | a config built from a string prompt can always be marked for prompt caching |
| `ApiEngines.VertexAIUsage.constructor` | agentless/util/api_requests.py:287-295 | the four usage fields are set from the arguments |
| `ApiEngines.ReplyText` | agentless/util/api_requests.py:266 | a response with a `text` attribute gives that attribute as it is, so the text is missing exactly when it is None; without the attribute the text is `str(response)` |
| `ApiEngines.VertexAIResponse.constructor` | agentless/util/api_requests.py:264-275 | the text is `response.text`, or `str(response)` without that attribute. Input and cache tokens are 0, and output tokens are `len(text) // 4` |
| `ApiEngines.VertexAIResponse.ToDict` | agentless/util/api_requests.py:277-284 | `to_dict` exposes the text, 0 input tokens and `len(text) // 4` output tokens (4 * output <= length < 4 * output + 4) |
| `ApiEngines.VertexSchedule` | agentless/util/api_requests.py:250-253 | the sleep after the i-th failed attempt is `min(5 * (i + 1), 60)` |
| `ApiEngines.VertexBackoff` | agentless/util/api_requests.py:251 | each Vertex wait is between 5 s and 60 s, and is `5 * (retries + 1)` s for the first eleven retries |
| `ApiEngines.RequestVertexaiEngine` | agentless/util/api_requests.py:216-258 | with no client library it raises before any attempt. Otherwise it makes at most `max_retries` attempts and stops at the first response whose text can be wrapped. A response whose text is None counts as a failure. There is one sleep per failed attempt except after the last attempt |
| `ApiEngines.VertexBackoffLinearCapped` | agentless/util/api_requests.py:251 | the Vertex wait is 5 s times the attempt number up to the 11th retry, is 60 s from then on, and never decreases |
| `ApiEngines.VertexTotalWait` | agentless/util/api_requests.py:250-253 | k Vertex sleeps total between 5 s and 60 s per sleep |

## Left out

- JSONL reading and writing, the `embed_used_locs.jsonl` / `model_used_locs.jsonl` dump files, `tqdm`, `argparse` and `main` of `agentless/fl/combine.py`. Files are sequences of records.
- The swallowed exception when the existing output file is corrupted. `load_jsonl` is not part of this model. The existing output is always a readable record sequence.
- Records that lack `instance_id` or `found_files`, where the source raises `KeyError` or adds `None` to the skip set. Every record here has both fields.
- `num_tokens_from_messages`, which needs the external tokenizer, and the `handler` signal function.
- Logging, `print`, `time.time` and the `timeout` parameters: they only choose log messages. `time.sleep` is not performed; its delays are returned in order.
- Construction of the provider clients (`openai.OpenAI(base_url=…)`, `anthropic.Anthropic()`, `genai.Client(…)`), including `base_url`, project and location. They happen outside the retry loops.
- `temperature` is a `real` that is only passed through; no floating-point behaviour is modelled.
- Python's dynamic typing of message entries: a role is a string or absent, and a content is a string, a list of text blocks, or absent.
- `Str`: `str()` of a non-string content is Python's repr; the model renders a block list by concatenating its texts. A content explicitly set to `None` (rendered `"None"`) is not distinguished from an absent one.
- `RequestAnthropicEngine`: the source updates the caller's `config` dict in place, and through aliasing a message list passed to `create_anthropic_config`. The model returns the updated config as `sent` instead. Aliasing is not modelled.
- `RequestChatgptEngine`: a `None` response from the client is not modelled. The client always returns a response or raises.
- `RequestAnthropicEngine`: a `None` return from the client is not modelled either. In the source the loop then tries again without sleeping (agentless/util/api_requests.py:148, 157-159). Here the client always returns a response or raises.
- `VertexAIResponse.constructor`: its precondition excludes a response whose `text` is None, where `len(None)` raises `TypeError` (agentless/util/api_requests.py:272). `RequestVertexaiEngine` checks the text before constructing and counts that case as a failed attempt, as the source's `except Exception` does.
