# AegisAI self-healing question answering, in Dafny

This project models the request path of AegisAI, a retrieval-augmented
question-answering service that watches the quality of its own answers
and repairs itself. A question runs through these steps:

- It is answered from the passages nearest to it in a vector index.
- The confidence of that retrieval is derived from the mean search distance.
- A policy classifier may block the answer.
- A hallucination test decides whether the answer failed.
- A failed answer is diagnosed (retrieval drift or another cause) and healed.
  Healing either forces a re-ingestion of the document corpus or repairs
  the prompt.

Ingestion collects the `.txt` and `.md` files of three data directories. It
fingerprints their contents and rebuilds the index and its stored
fingerprint unless the fingerprint shows that nothing drifted. Two offline
evaluations check the answers:

- a keyword regression test;
- a groundedness test judged by a model.

One module per source file:

| module | file | what it is |
|---|---|---|
| `Retriever` | `retriever.dfy` | `retrieve`: the collecting loop as a method, proved against the function `Retrieval` |
| `Fingerprinting` | `fingerprint.dfy` | `fingerprint_docs`: a `Hasher` class fed in a loop, proved against `Fingerprint` |
| `Ingestion` | `ingest.dfy` | `ingest(force)` on an `Ingestor` class that holds the file system, the index and `meta.json` |
| `CriticAgent`, `PolicyAgent`, `RootCauseAgent` | `*_agent.dfy` | the three agents' decision rules |
| `SelfHeal` | `self_heal.dfy` | `heal(reason)`, which dispatches to a forced re-ingestion or to prompt repair |
| `App` | `app.dfy` | `ask_ui` and `ask_api` on a `Server` class that holds the counters, the audit trail and the served index |
| `RegressionEval`, `GroundednessEval` | `regression.dfy`, `groundedness.dfy` | the two evaluation loops |

The remaining files hold shared definitions:

- `Text` holds the Python string operations the code relies on: `in`, `endswith`, `lower`, `strip` and `"\n".join`. It also holds `split("\n")`, used only to state that the retrieved context round-trips.
- `Wrappers` holds `Option` and `Result`.
- `Documents` holds documents and index snapshots.
- `Sequences` holds the subsequence relation.

Collaborators outside the core are parameters or constant fields, so every
property holds for any of them. These are:

- the language model's replies;
- the vector search;
- SHA-256;
- the text splitter;
- the answerer.

The audit log and the order of writes on disk are ghost trails.

Where the code and the system's design notes disagree, the model follows the code:

- **Healing errors are not caught.** The design notes say a healing failure is caught and the request still answered. In the code, `heal` calls `ingest(force=True)` without a `try` (healing/self_heal.py:8), and neither handler catches what it raises. So when re-ingestion finds no documents, the request ends in a server error and no `self_heal` event is logged. `UiAnswered` and `ApiAnswered` state this.
- **The fingerprint ignores document boundaries and paths.** The design notes present the fingerprint as detecting any corpus change. The code hashes only the concatenated page contents (ingestion/fingerprint.py:5-6). So moving text between files, or renaming a file, is not drift. `FingerprintIgnoresBoundariesAndSources` exhibits two such corpora with equal digests.
- **`ask_api` logs success after healing.** It appends `success` after `self_heal` (app.py:245-251), whereas `ask_ui` appends exactly one event. `TrailsCompared` states the difference.
- **The served index is loaded once.** `db` is loaded at start-up (app.py:16). A rebuild during healing changes the store on disk but not the index later requests search. In `Server`, `served` is therefore a constant.

## Model

| member | source | states |
|---|---|---|
| Retriever.Retrieve | rag/retriever.py:4-27 | the context and confidence returned are those of `Retrieval` on the search made with `k` unchanged: the joined passages and the clamped confidence rounded to hundredths; confidence lies in [0, 1] |
| Retriever.NearestEvenClose | rag/retriever.py:27 | rounding to an integer moves a value by at most one half |
| Retriever.NearestEvenMonotone | rag/retriever.py:27 | rounding to an integer never reverses an order |
| Retriever.NearestEvenOfInteger | rag/retriever.py:27 | an integer rounds to itself |
| Retriever.Round2Close | rag/retriever.py:27 | `round(x, 2)` is within half a hundredth of `x` |
| Retriever.Round2Monotone | rag/retriever.py:27 | `round(x, 2)` never reverses an order |
| Retriever.Round2Idempotent | rag/retriever.py:27 | rounding a rounded value changes nothing, so the second `round` in the handlers is the identity |
| Retriever.RoundedConfidenceInUnitInterval | rag/retriever.py:25-27 | the rounded confidence lies in [0, 1] |
| Retriever.RoundingNearThresholds | rag/retriever.py:19-27 | mean distance 0.891 gives 0.703 before rounding and 0.7 after; 0.906 gives 0.698 before and 0.7 after |
| Retriever.EmptyResult | rag/retriever.py:7-8 | an empty search result gives exactly `("", 0.0)` |
| Retriever.ContextRecoversPassages | rag/retriever.py:13-17 | when no passage contains a newline, splitting the context on newlines gives back the page contents in result order |
| Retriever.ConfidenceInUnitInterval | rag/retriever.py:25 | the clamped confidence lies in [0, 1] for every mean distance |
| Retriever.ConfidenceRegions | rag/retriever.py:19-25 | mean distance in [0, 3] gives 1 - mean/3; 3 or more gives 0; 0 or less gives 1 |
| Retriever.ConfidenceNonIncreasing | rag/retriever.py:21-25 | a larger mean distance never gives a larger confidence |
| Retriever.SumMonotone | rag/retriever.py:19 | the sum of distances is monotone elementwise, the step that carries monotonicity to the mean |
| Retriever.SumOfZeros | rag/retriever.py:19 | all-zero distances sum to zero |
| Retriever.RetrievalConfidenceMonotone | rag/retriever.py:19-25 | with the same number of hits, elementwise smaller distances never give lower confidence |
| Retriever.AllZeroDistancesGiveFullConfidence | rag/retriever.py:21-25 | a non-empty result with all distances 0 gives confidence 1 |
| Retriever.ConfidenceExamples | rag/retriever.py:22-24 | distances 0, 1.5 and 3 give confidences 1, 0.5 and 0 |
| Fingerprinting.Utf8Char | ingestion/fingerprint.py:6 | UTF-8 encodes a code point in 1 to 4 bytes, and in one byte exactly when it is ASCII |
| Fingerprinting.Utf8Append | ingestion/fingerprint.py:6 | encoding a concatenation is the concatenation of the encodings |
| Fingerprinting.Hasher.constructor | ingestion/fingerprint.py:4 | a fresh hasher has been fed nothing |
| Fingerprinting.Hasher.Update | ingestion/fingerprint.py:6 | `update` appends its bytes to everything fed so far |
| Fingerprinting.FingerprintDocs | ingestion/fingerprint.py:3-7 | the digest is the hash of the UTF-8 encoding of the page contents concatenated in list order |
| Fingerprinting.FingerprintInputAppend | ingestion/fingerprint.py:5-6 | appending a document extends the hashed input by that document's encoded content |
| Fingerprinting.FingerprintOfNoDocuments | ingestion/fingerprint.py:4-7 | no documents give the hash of the empty input |
| Fingerprinting.FingerprintSeesOnlyConcatenation | ingestion/fingerprint.py:5-6 | document lists with equal concatenated contents have equal digests, whatever their boundaries and paths |
| Fingerprinting.FingerprintIgnoresBoundariesAndSources | ingestion/fingerprint.py:5-6 | ["ab", "c"] and ["a", "bc"], under different paths, have the same digest |
| Ingestion.Ingestor.constructor | ingestion/ingest.py:8-14 | the ingestor starts from the given files, index and fingerprint, with nothing written |
| Ingestion.Ingestor.LoadDocuments | ingestion/ingest.py:17-27 | the nested loop collects exactly `Corpus(DATA_DIRS)`: per directory in order, the text and markdown files of its listing |
| Ingestion.Ingestor.Ingest | ingestion/ingest.py:16-51 | the result and the new index and fingerprint are those of `IngestSpec` on the collected documents; the writes are the index and then the fingerprint, on a rebuild only |
| Ingestion.Ingestor.IngestDocuments | ingestion/ingest.py:29-51 | the same, for given documents: the error, no-drift and rebuild paths with their writes |
| Ingestion.EmptyCorpusFailsWithoutChange | ingestion/ingest.py:29-30 | no documents: the run fails with "no documents" and the store is unchanged |
| Ingestion.NoDriftIsNoop | ingestion/ingest.py:34-39 | unforced, with a stored fingerprint equal to the corpus's: no rebuild and no write |
| Ingestion.RebuildCondition | ingestion/ingest.py:32-51 | with documents, a rebuild happens exactly when forced, without a stored fingerprint, or with a different one; it stores the new index and the fingerprint of the documents just read, index first |
| Ingestion.IngestIdempotent | ingestion/ingest.py:32-39 | after any successful run, an unforced run on the same documents is a no-op |
| Ingestion.ListingDocsMembership | ingestion/ingest.py:23-27 | a listing contributes exactly its `.txt` and `.md` files, each under its joined path |
| Ingestion.CorpusMembership | ingestion/ingest.py:19-27 | a collected document comes from an existing directory of the list; missing directories are skipped |
| Ingestion.NoDirectoriesMeansNoDocuments | ingestion/ingest.py:19-30 | when no data directory exists, nothing is collected and the run fails |
| CriticAgent.ShouldFailIsHallucinated | agents/critic_agent.py:6-12 | the verdict equals `hallucinated` and does not depend on the confidence |
| PolicyAgent.PolicyCheckExamples | agents/policy_agent.py:16-18 | "OK" and "violation" pass; "VIOLATION" and "NO VIOLATION" are violations |
| PolicyAgent.PolicyCheckAnyContext | agents/policy_agent.py:18 | any reply containing "VIOLATION" is a violation |
| RootCauseAgent.DiagnoseFastPath | agents/root_cause_agent.py:7-8 | above 0.7 the reason is "Retrieval drift", whatever the classifier says |
| RootCauseAgent.DiagnoseClassifierPath | agents/root_cause_agent.py:9-15 | at or below 0.7 (0.7 included) the reason is the classifier's reply, unchanged |
| SelfHeal.Heal | healing/self_heal.py:4-10 | exactly one action runs: a reason containing "Retrieval" forces re-ingestion, whose error propagates; any other reason repairs the prompt and leaves the store unchanged |
| SelfHeal.DispatchExamples | healing/self_heal.py:7-10 | "Retrieval" re-ingests; "Prompt", "Data staleness" and the lower-case "retrieval drift" repair the prompt |
| SelfHeal.FastPathReasonReingests | healing/self_heal.py:7-8 | the diagnoser's fast-path reason always leads to re-ingestion |
| SelfHeal.ForcedReingestion | healing/self_heal.py:8 | a forced re-ingestion fails, leaving the store unchanged, exactly when there are no documents, and otherwise rebuilds with their fingerprint |
| App.ConfidenceClassThresholds | app.py:188-193 | the class is good at 0.7 or more, medium in [0.4, 0.7), and bad below 0.4 |
| App.HallucinationTestsDiffer | app.py:175 | the API test implies the UI test; any answer containing "I don't know" fails both; "  42\n" fails the UI test only |
| App.RoundedConfidenceDecides | app.py:181-193 | `diagnose` and the confidence class see the rounded confidence: mean distance 0.891 takes the classifier path, and 0.906 is shown as good |
| App.ViolationIsTerminal | app.py:161-171 | a policy violation blocks, whatever the answer quality and confidence |
| App.RepairExactlyWhenHallucinated | app.py:174-182 | without a violation, healing is requested exactly for a hallucinated answer, with the diagnosed reason |
| App.TrailsCompared | app.py:179-185 | `ask_ui` appends exactly one event; `ask_api` appends "success" after "self_heal"; a policy event appears exactly when blocked |
| App.Server.constructor | app.py:16 | the server starts with zero counters, an empty audit trail and the index on disk as its served index |
| App.Server.HandleFailure | app.py:180-182 | a failure is counted, diagnosed and healed; healing raises exactly when it re-ingests with no documents |
| App.Server.AskUi | app.py:152-224 | the query is counted; then the block, heal or pass decision fixes the page, the healing warning, the confidence class, the failure count, the one audit event and the store on disk |
| App.Server.AnswerUiQuery | app.py:157-224 | the page, counters, audit trail and store after the form is read, as `UiAnswered` states |
| App.Server.AskApi | app.py:229-256 | the query is counted; a missing body or "query" key gives `MissingQuery`, with nothing else changed; the status is 400 exactly then; otherwise the reply, failures, audit trail and store follow `ApiAnswered` |
| App.Server.AnswerApiQuery | app.py:237-256 | the JSON reply, counters, audit trail and store for a present query, as `ApiAnswered` states |
| RegressionEval.Evaluations | evals/regression.py:20-30 | one record per test, in test order |
| RegressionEval.RunRegressionEval | evals/regression.py:16-39 | the loop returns exactly the records with a non-empty `missing` list, in test order |
| RegressionEval.MissingMembership | evals/regression.py:27-30 | a keyword is missing exactly when it is expected and its lower-case form is not in the lower-cased answer |
| RegressionEval.MissingInOrder | evals/regression.py:27-30 | the missing keywords keep keyword order: they form a subsequence of the expected keywords |
| RegressionEval.MissingEmptyIff | evals/regression.py:27-32 | nothing is missing exactly when every expected keyword is mentioned |
| RegressionEval.FailuresMembership | evals/regression.py:32-37 | a record is a failure exactly when it is one of the tests' records and its `missing` list is non-empty |
| RegressionEval.FailuresInOrder | evals/regression.py:20-37 | the failures keep test order: they form a subsequence of the tests' records |
| RegressionEval.NoFailuresIff | evals/regression.py:27-39 | the result is empty exactly when every test's answer mentions all of its keywords |
| RegressionEval.MentionsIgnoresCase | evals/regression.py:29 | the keyword test ignores case: "Encrypted" is found in "Data is ENCRYPTED at rest" |
| GroundednessEval.RunGroundednessEval | evals/groundedness.py:39-63 | one result per test, in test order, each with its answer, verdict and pass flag |
| GroundednessEval.PassedRule | evals/groundedness.py:51-54 | passed holds exactly when the answer is grounded and holds every phrase; ungrounded never passes; no phrases means passed equals grounded |
| GroundednessEval.VerdictExamples | evals/groundedness.py:36-37 | "YES" and " YES\n" are grounded verdicts; "yes", "YES." and "NO" are not |

## Left out

- Retriever.Retrieve: the mean and the clamp are computed on exact reals, not floats. `round(confidence, 2)` then rounds that exact value to the nearest hundredth, ties to even. Python rounds the float it actually computed, so where float error carries the value across a half-hundredth the two can differ by 0.01.
- The second `round` at app.py:207 and app.py:255 is not repeated in the page and the reply. `Round2Idempotent` shows it changes nothing.
- Floating point: distances and confidences are reals, so float overflow and precision are not modelled.
- The language model calls: prompts, model names and temperature are left out. Each reply is a function of the text the code passes in, so the agents' rules hold for any reply.
- The vector store: FAISS, embeddings, and saving or loading the index are left out. An index is a snapshot of the chunks it was built from. The served index must exist when the server starts, and the error `load_store` raises without it is not modelled.
- SHA-256 internals: the hash is an arbitrary function of the byte string. Collisions are therefore neither excluded nor assumed.
- The text splitter (chunk size 700, overlap 100): it is an abstract function from documents to chunks.
- File I/O: the order in which `os.listdir` returns entries is the given listing order. Subdirectory entries, unreadable files and UTF-8 decoding errors of `TextLoader` are not modelled.
- Malformed `meta.json`: JSON parsing is left out. A `meta.json` without a "fingerprint" key, which raises `KeyError`, is not modelled: the stored fingerprint is either absent or a digest.
- The log lines printed by `ingest` and `heal`, and the timestamps of audit entries, are left out. The audit trail records each event's name and payload.
- `repair_prompt` (healing/prompt_repair.py) is not part of this model: prompt repair is a no-op that succeeds.
- `monitoring.metrics` is not part of this model: `log_query` and `log_failure` are the `queries` and `failures` counters.
- HTML and Flask: templates, routing and JSON encoding are left out.
- App.Server.AskApi: the body is either absent or a JSON object of strings. A body that is another JSON value, such as the string "my query" or the list ["query"], can pass the `"query" in data` test and then fail at `data["query"]` (app.py:234-237), giving a 500. That path is not modelled.
- App.Server.AskUi: a form without a "query" field (a 400 from Flask) is not modelled. The query is a parameter.
- `load_store` in the evaluations is left out: each evaluation takes the search over an already loaded index.
- Text.Lower: it lowers ASCII letters only. Python's `str.lower` also maps other letters, so keyword tests on non-ASCII text are weaker than the source's.
- Concurrency: requests are handled one at a time. Flask's threading and the races between a rebuild and a request are not modelled.
