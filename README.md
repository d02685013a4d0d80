# Verified model of the reparableia-cpu back end

This project is a Dafny model of the decision and bookkeeping logic of a Flask back end. The back end runs
untrusted code in a sandbox, offers string helpers and validators, plans deployments, repairs itself from
system metrics, and hosts two chat assistants. The model covers:

- **Sandbox** (`sandbox.dfy`): the language registry; the `/execute` request screening; `execute_code`
  dispatch on the once-computed `docker_available` flag; the result shape of both backends; and the
  temporary-file and watchdog-timer bookkeeping on every exit path. The `CodeSandbox` class keeps the
  live temporary files as a `set<nat>`, the armed timers as a counter and the backends reached as a
  sequence. What the process or container did is an input (`ProcessOutcome`, `ContainerOutcome`).
- **Helpers** (`helpers.dfy`):
  - `truncate_text` and `sanitize_filename`;
  - `validate_email` and `validate_phone` as hand-written recognizers, each proved equal to the language
    of its regular expression;
  - `extract_keywords`, with its counting loop as a method, proved against a specification function.
- **Deploy** (`deploy.dfy`):
  - the strategy and provider rules, over three constant tables;
  - `_generate_reasoning`;
  - database detection and the complexity score of `analyze_application`;
  - the `DeploymentExecutor` class, whose `execute_deployment` sets the status and appends to
    `execution_history`.
- **SelfRepair** (`self_repair.dfy`):
  - the `SystemMonitor` class with `record_request_metric`;
  - `detect_anomalies` over a given metrics record;
  - `generate_repair_plan` (a stable sort, a recommended first action and a total time);
  - `_get_execution_steps`;
  - the `RepairEngine` class with `execute_repair_action` and its history.
- **AssistantSimple** (`assistant_simple.dfy`): keyword routing of replies and of code generation;
  `get_code_template`; and the `SimpleAssistant` class, whose `conversation_history` map holds each
  session's last 20 entries.
- **AssistantEnhanced** (`assistant_enhanced.dfy`):
  - `needs_internet_search` and `_extract_search_terms`;
  - the result extraction of `search_internet`, as a method with a loop;
  - `get_search_history`;
  - the prompt window and session history of `get_ai_response`;
  - `get_code_template`.

  The web request and the completion service are parameters.

Shared modules:

- `Common` holds Python slicing (`s[-n:]`, `s[:n]`), list comprehension filters and the JSON value type.
- `Text` holds `str.lower`, `strip`, `split`, `join`, the `in` substring test and `any`.
- `Sorting` holds a stable sort proved to be an ordered, stable permutation that keeps sums.
- `Conversation` holds the 20-entry session window that both assistants share.

Points of the sandbox code that the model follows closely:

- The length cap is `len(code) > 10000` on the stripped code (`src/routes/sandbox.py:254`). It counts
  characters, although the comment and the error message beside it speak of 10KB.
- The request checks run in this order: reading the fields, empty code, empty language, length,
  dangerous-pattern prefilter, and only then the language-support check inside `execute_code`. Blocked
  code in an unsupported language is therefore reported as blocked. The unsupported-language answer is a
  result dictionary, not a validation error.
- Reading the fields calls `.strip()` on the code and `.lower()` on the language. A field present with a
  value that is not a string (null, a number) raises, and the handler's `except` answers 500.
- On the container path, a wait that exceeds the timeout is not a separate timeout result. It is the
  generic `Error en Docker:` failure (`WaitFails`).
- The stderr delimiter is `"\n--- STDERR ---\n"`, with a newline on each side.
- The temporary file is not removed on every exit path: a failed write leaves it behind (see Findings).
  `ExecuteCodeAsWritten` is `execute_code` as written; `ExecuteCode` and `HandleExecute` run over the
  corrected backends.

## Model

| member | source | states |
|---|---|---|
| Common.Last | src/routes/ai_assistant_simple.py:193-194 | `s[-n:]`: exactly the last `n` elements, or all of them when there are fewer; the result is a suffix of `s` |
| Common.PySliceTo | src/utils/helpers.py:139 | `s[:n]` for any integer `n`: its length for non-negative and for negative `n` (counting from the end, clamped at 0), and it is a prefix of `s` |
| Common.LastOfLast | src/routes/self_repair_simple.py:92-98 | trimming to the last `n` after every append gives the same list as trimming once after all appends |
| Common.Filter | src/utils/helpers.py:111-112 | a list comprehension filter: never longer than its input, keeps only accepted elements, and returns the input when every element is accepted |
| Common.FilterCounts | src/utils/helpers.py:111-112 | an accepted element occurs in the filtered list exactly as often as in the input |
| Common.DistinctCountsOnce | src/utils/helpers.py:115-117 | an element occurs at most once in a list without repetitions (the dict's keys) |
| Common.PermutationKeepsDistinct | src/utils/helpers.py:120 | a permutation of a list without repetitions has no repetitions |
| Common.Get | src/routes/autonomous_deploy.py:175-182 | `d.get(key, default)`: the stored value for a present key, the default otherwise |
| Common.NatToString | src/routes/ai_assistant_enhanced.py:168 | `str(n)` of a natural number is non-empty |
| Text.LowerChar | src/utils/helpers.py:102 | `str.lower` on one character: the result is never upper-case, and a character that is not upper-case is unchanged |
| Text.Lower | src/utils/helpers.py:102 | `str.lower` keeps the length and lowercases character by character |
| Text.LowerIdempotent | src/routes/ai_assistant_enhanced.py:191 | lowercasing twice equals lowercasing once |
| Text.ContainsIff | src/routes/sandbox.py:266-272 | the `in` scan finds `p` in `s` exactly when `p` occurs at some index of `s` |
| Text.ContainsEdgeCases | src/routes/sandbox.py:266-272 | the empty string is in every string, and a non-empty string is never in the empty one |
| Text.ContainsTransitive | src/routes/sandbox.py:258-272 | if `a` is in `s` and `b` is in `a`, then `b` is in `s` |
| Text.ContainsAnyIff | src/routes/ai_assistant_enhanced.py:192 | `any(w in s for w in words)` holds exactly when some word of the list is in `s` |
| Text.TrimStart | src/routes/sandbox.py:243 | the result is a suffix of the input; everything removed is whitespace; it does not start with whitespace |
| Text.TrimEnd | src/routes/sandbox.py:243 | the result is a prefix of the input; everything removed is whitespace; it does not end with whitespace |
| Text.Strip | src/routes/sandbox.py:243 | `str.strip()`: the result is a contiguous piece of the input with only whitespace removed on either side and none left at its ends; it is empty exactly when the input is all whitespace |
| Text.TrimBoth | src/routes/sandbox.py:243 | trimming the start and then the end yields a stripped piece of the input, empty exactly for all-whitespace input |
| Text.TrimBothIsStrip | src/routes/sandbox.py:243 | trimming the start and then the end removes only leading and trailing whitespace |
| Text.TrimBothEmpty | src/routes/sandbox.py:243 | trimming both ends leaves nothing exactly when the input is all whitespace |
| Text.WordLen | src/utils/helpers.py:111 | the run of non-whitespace at the start of a string ends at whitespace or at the end |
| Text.Words | src/utils/helpers.py:111 | `str.split()`: every word is non-empty and free of whitespace |
| Text.RemoveSpaces | src/utils/helpers.py:111 | deleting the whitespace leaves no whitespace |
| Text.RemoveSpacesAppend | src/utils/helpers.py:111 | deleting whitespace distributes over concatenation |
| Text.RemoveSpacesOfWord | src/utils/helpers.py:111 | deleting whitespace from a word changes nothing |
| Text.WordsKeepEveryNonSpace | src/utils/helpers.py:111 | `str.split()` loses only whitespace: its words concatenate to the input without its whitespace |
| Text.Join | src/routes/ai_assistant_enhanced.py:300 | `sep.join`: empty for no words, the word itself for one |
| Text.WordLenOfWordThenSpace | src/routes/ai_assistant_enhanced.py:300 | a word followed by a space is read back as exactly that word |
| Text.WordLenOfWord | src/routes/ai_assistant_enhanced.py:300 | a whole word is read back as one word |
| Text.WordsOfJoin | src/routes/ai_assistant_enhanced.py:300 | splitting words joined by single spaces gives back exactly those words |
| Sorting.Insert | src/routes/self_repair_simple.py:300 | inserting adds exactly one element |
| Sorting.InsertPermutes | src/routes/self_repair_simple.py:300 | inserting adds exactly the inserted element to the multiset |
| Sorting.InsertSorted | src/routes/self_repair_simple.py:300 | inserting into a sorted list keeps it sorted |
| Sorting.InsertWithKey | src/routes/self_repair_simple.py:300 | inserting puts the new element in front of the elements with its own key (stability) |
| Sorting.InsertSum | src/routes/self_repair_simple.py:308 | inserting adds the inserted element's value to the sum |
| Sorting.SortBy | src/utils/helpers.py:120 | `sorted(key=...)` keeps the length |
| Sorting.SortByPermutes | src/routes/self_repair_simple.py:300 | the sorted list is a permutation of the input |
| Sorting.SortBySorted | src/routes/self_repair_simple.py:300 | the sorted list is ordered by key |
| Sorting.SortByStable | src/utils/helpers.py:120 | Python's stability: the elements with any given key appear in their input order |
| Sorting.SortBySum | src/routes/self_repair_simple.py:308 | sorting keeps the sum of any per-element value |
| Sorting.SortByFirstIsLeast | src/routes/self_repair_simple.py:307 | the first sorted element is from the input and has a least key |
| Sorting.WithKeyMember | src/utils/helpers.py:120 | an element with key `k` is among the elements with key `k` |
| Sorting.WithKeyFromInput | src/utils/helpers.py:120 | every element with key `k` comes from the input |
| Sorting.WithKeyKeepsOrder | src/utils/helpers.py:120 | two elements with equal keys appear among that key's elements in the same relative order |
| Sorting.WithKeyOrderFromInput | src/utils/helpers.py:120 | the order among one key's elements is their order in the input |
| Conversation.SessionEntries | src/routes/ai_assistant_simple.py:169-172 | a session is read as its stored entries, or as empty when it is new |
| Conversation.AppendExchange | src/routes/ai_assistant_simple.py:189-194 | after an exchange the session has at most 20 entries, and its last two are the user's message and then the reply |
| Conversation.WindowOfWindow | src/routes/ai_assistant_simple.py:189-196 | appending to the 20-entry window and trimming equals the last 20 entries of everything ever said |
| Conversation.AppendExchangeAlternates | src/routes/ai_assistant_simple.py:189-194 | because 20 is even, a session whose entries alternate user/assistant keeps alternating after an exchange |
| Conversation.AlternatingSuffix | src/routes/ai_assistant_simple.py:193-194 | dropping an even number of leading entries keeps the alternation |
| Conversation.RecentEntries | src/routes/ai_assistant_enhanced.py:230-231 | `history[-10:]`: at most 10 entries, the most recent ones in order, and the whole history when it is shorter |
| Conversation.ExchangeKeepsWindowed | src/routes/ai_assistant_simple.py:189-196 | recording an exchange keeps every session equal to the last 20 entries of what was said in it, alternating |
| Conversation.ExchangeWindowed | src/routes/ai_assistant_simple.py:189-196 | an exchange keeps one session windowed and alternating |
| Conversation.UpdateKeepsWindowed | src/routes/ai_assistant_simple.py:196 | replacing one session's entries leaves every other session untouched and windowed |
| Sandbox.Lookup | src/routes/sandbox.py:56-63 | a lookup succeeds exactly for the three registry keys and returns that entry; no default |
| Sandbox.RegistryContents | src/routes/sandbox.py:22-41 | the registry holds exactly python, javascript and bash, with timeouts 30/30/15 and memory caps 128m/128m/64m |
| Sandbox.CombineOutput | src/routes/sandbox.py:196-198 | the output is stdout, followed by the delimiter and stderr exactly when stderr is non-empty |
| Sandbox.UnsupportedLanguageRejected | src/routes/sandbox.py:56-61 | an unknown language fails with an error listing exactly the registry keys, with no exit code and no output |
| Sandbox.ExitedProcessResult | src/routes/sandbox.py:193-206 | a process that exits succeeds iff its return code is 0, echoes the code, reports a time, and its output is stdout plus stderr only when stderr is non-empty |
| Sandbox.TimeoutResultShape | src/routes/sandbox.py:208-214 | a timeout is a failure with a `Timeout:` message, no exit code and no output |
| Sandbox.ContainerFinishedShape | src/routes/sandbox.py:122-132 | a finished container succeeds iff its status code is 0, with the logs as output and `execution_time` None |
| Sandbox.SuccessMeansExitZero | src/routes/sandbox.py:54-228 | on any path a result claims success only with exit code 0 and no error |
| Sandbox.CodeSandbox.constructor | src/routes/sandbox.py:43-44 | the backend flag is fixed once from the runtime probe; no files, timers or runs yet |
| Sandbox.CodeSandbox.CreateTempFile | src/routes/sandbox.py:157-159 | a temporary file with a new name is added to the live files |
| Sandbox.CodeSandbox.Unlink | src/routes/sandbox.py:219-221 | the file is removed from the live files |
| Sandbox.CodeSandbox.RunProcess | src/routes/sandbox.py:161-217 | the process result for the outcome, with the watchdog cancelled on every way out of the wait |
| Sandbox.CodeSandbox.ExecuteWithSubprocess | src/routes/sandbox.py:153-228 | corrected process backend: the result for the outcome, with the live temporary files and the armed timers the same after the call as before |
| Sandbox.CodeSandbox.ExecuteWithSubprocessAsWritten | src/routes/sandbox.py:155-159 | process backend as written: a failed write leaves exactly one new file behind; every other path removes it |
| Sandbox.CodeSandbox.ExecuteWithDocker | src/routes/sandbox.py:70-151 | corrected container backend: the result for the outcome, with the live temporary files the same after the call as before |
| Sandbox.CodeSandbox.ExecuteWithDockerAsWritten | src/routes/sandbox.py:84-87 | container backend as written: a failed write leaves exactly one new file behind; every other path removes it |
| Sandbox.CodeSandbox.RunContainer | src/routes/sandbox.py:99-140 | the container result for each outcome after the file is written |
| Sandbox.CodeSandbox.ExecuteCode | src/routes/sandbox.py:54-68 | corrected `execute_code`: an unknown language touches no backend; a known one runs exactly the backend `docker_available` selects; files and timers are the same after the call |
| Sandbox.CodeSandbox.ExecuteCodeAsWritten | src/routes/sandbox.py:54-68 | `execute_code` as written: the same result; exactly one new temporary file is left behind when a known language's selected backend fails to write the code, none otherwise; every timer is cancelled |
| Sandbox.SubprocessResult | src/routes/sandbox.py:153-228 | the process backend's result: success exactly for an exit with code 0; an exit code, and no error, exactly when the process exited; the language is echoed |
| Sandbox.ContainerResult | src/routes/sandbox.py:70-151 | the container backend's result: success exactly for a finished container with status 0; an exit code exactly when it finished; an output only when it finished or the runtime reported a container error |
| Sandbox.ExecuteCodeResult | src/routes/sandbox.py:54-68 | an unknown language gets the unsupported answer; a known one is echoed with no language list; success only for a known language whose selected backend ended with code 0 |
| Sandbox.LeakOnFailedWrite | src/routes/sandbox.py:157-159 | a failed write on the process backend as written leaves one temporary file on disk |
| Sandbox.FirstMatch | src/routes/sandbox.py:266-272 | no pattern is reported exactly when none occurs; a reported pattern is in the list and occurs in the text |
| Sandbox.Screen | src/routes/sandbox.py:238-277 | the route's screening: no body, a raise while reading a field, the four 400 checks in order, then the pattern filter; its outcomes are characterised by the lemmas below |
| Sandbox.ScreenRaises | src/routes/sandbox.py:243-283 | a non-empty body raises, and is answered 500, exactly when the code or the language is present and not a string; the code is read first |
| Sandbox.NullLanguageBeforeEmptyCode | src/routes/sandbox.py:243-248 | a null language raises even when the code is empty, because both fields are read before any check |
| Sandbox.ScreenEmptyCode | src/routes/sandbox.py:243-248 | empty code is refused exactly when both fields are text and the code field is missing or all whitespace |
| Sandbox.ScreenNoLanguage | src/routes/sandbox.py:243-251 | a missing language is refused exactly when both fields are text, the code passed and the language field is missing or empty |
| Sandbox.ScreenCodeTooLong | src/routes/sandbox.py:243-255 | long code is refused exactly when both fields are text, the earlier checks passed and the stripped code exceeds 10000 characters |
| Sandbox.ScreenAdmits | src/routes/sandbox.py:243-277 | a body is admitted exactly when both fields are text, every check passes and no pattern occurs in the lowercased code; it then carries the stripped code, the lowercased language and the input |
| Sandbox.ScreenFieldsAdmit | src/routes/sandbox.py:247-277 | the same admission rule stated on the stripped and lowercased fields |
| Sandbox.BlockedIsFirstMatch | src/routes/sandbox.py:243-272 | code is refused as blocked exactly when both fields are text, the earlier checks pass and a pattern occurs; the pattern reported is the first in list order |
| Sandbox.ScreenFieldsBlocked | src/routes/sandbox.py:247-272 | the same blocking rule stated on the stripped and lowercased fields |
| Sandbox.ShadowedNeverReported | src/routes/sandbox.py:266-272 | a pattern that contains an earlier pattern is never the one reported |
| Sandbox.RawInputNeverReported | src/routes/sandbox.py:258-264 | `raw_input(` is never reported, because `input(` precedes it and occurs wherever it does |
| Sandbox.HandleExecute | src/routes/sandbox.py:233-283 | `/execute` over the corrected `execute_code`: a refused request gets its 400 answer, and a field that raises gets the 500 answer, both leaving the sandbox unchanged; an admitted one is answered with `execute_code`'s result; no file or timer survives |
| Helpers.TruncateText | src/utils/helpers.py:135-139 | text that fits is returned as is; longer text ends with the suffix, preceded by a prefix of the text |
| Helpers.TruncateFits | src/utils/helpers.py:139 | when the limit leaves room for the suffix, a truncated text is exactly the limit long: the first `max_length - len(suffix)` characters, then the suffix |
| Helpers.TruncateBelowSuffix | src/utils/helpers.py:139 | when the suffix is longer than the limit, the negative slice drops characters from the end, and the result is longer than the limit |
| Helpers.LastIndexOf | src/utils/helpers.py:28 | finds the last occurrence of a character, or reports there is none |
| Helpers.SplitExt | src/utils/helpers.py:28 | `os.path.splitext`: stem and extension concatenate to the name; the extension is empty or a dot followed by no dot; a name whose dots are all leading has no extension |
| Helpers.CutStem | src/utils/helpers.py:29-31 | the stem cut to its first 50 characters, followed by the extension |
| Helpers.SanitizeFilename | src/utils/helpers.py:23-31 | the result contains none of the characters `<>:"/\` `?*` or the vertical bar, is never longer than the name, and every character of it comes from the name |
| Helpers.FilteredChars | src/utils/helpers.py:26 | a character of the filtered name is safe and occurs in the input |
| Helpers.CutStemChars | src/utils/helpers.py:29-31 | cutting the stem to 50 characters adds no character |
| Helpers.SanitizeKeepsExtension | src/utils/helpers.py:28-31 | the extension is kept, the stem becomes its first 50 characters, and a name whose stem fits is returned as filtered |
| Helpers.SanitizeDeletesOnlyUnsafe | src/utils/helpers.py:26 | every safe character keeps its multiplicity, and a name without unsafe characters is not changed |
| Helpers.FirstIndexOf | src/utils/helpers.py:35 | finds the first occurrence of a character, or reports there is none |
| Helpers.EmailBodySound | src/utils/helpers.py:35 | whatever the email recognizer accepts is in the pattern's language |
| Helpers.EmailBodyComplete | src/utils/helpers.py:35 | every string in the pattern's language is accepted |
| Helpers.EmailBodyIff | src/utils/helpers.py:35 | the email recognizer accepts exactly the pattern's language: a local part, `@`, a domain, `.`, and two or more ASCII letters |
| Helpers.EmailMarks | src/utils/helpers.py:35 | an accepted address, with or without one trailing newline, holds an `@` and a dot |
| Helpers.ValidateEmail | src/utils/helpers.py:33-36 | `validate_email` as written: it accepts whatever the corrected validator accepts, and only strings with an `@` and a dot; ValidateEmailIff gives its exact language |
| Helpers.ValidateEmailStrict | src/utils/helpers.py:35-36 | the corrected validator accepts only strings with an `@` and a dot; ValidateEmailStrictIff gives its exact language |
| Helpers.ValidateEmailIff | src/utils/helpers.py:33-36 | `validate_email` as written accepts the language, and also the language followed by one newline |
| Helpers.ValidateEmailStrictIff | src/utils/helpers.py:35-36 | the corrected validator accepts exactly the language, and never a string containing a newline |
| Helpers.EmailTrailingNewline | src/utils/helpers.py:35-36 | any valid address followed by a newline passes `validate_email` as written but not the corrected one |
| Helpers.EmailExample | src/utils/helpers.py:35 | `a@b.co` is in the language, so the newline case applies to a real address |
| Helpers.PhoneBodyIff | src/utils/helpers.py:40 | the phone recognizer accepts exactly an optional `+`, an optional `1`, then 9 to 15 digits |
| Helpers.PhoneMatchIff | src/utils/helpers.py:40-41 | the `$`-anchored phone match accepts the language, with or without one trailing newline |
| Helpers.ValidatePhone | src/utils/helpers.py:38-41 | `validate_phone` as written: it accepts whatever the corrected validator accepts, and only numbers of 9 to 18 characters once spaces and hyphens are deleted |
| Helpers.ValidatePhoneStrict | src/utils/helpers.py:40-41 | the corrected validator accepts only numbers of 9 to 17 characters once spaces and hyphens are deleted |
| Helpers.ValidatePhoneIff | src/utils/helpers.py:38-41 | after deleting spaces and hyphens, `validate_phone` as written accepts the language with an optional trailing newline, and the corrected one accepts exactly the language |
| Helpers.PhoneTrailingNewline | src/utils/helpers.py:40-41 | nine digits followed by a newline pass `validate_phone` as written but not the corrected one |
| Helpers.CleanText | src/utils/helpers.py:102 | the cleaned text holds only word characters and whitespace, none of them upper-case |
| Helpers.Candidates | src/utils/helpers.py:111-112 | every counted word is longer than two characters, not a stop word, and a word of the cleaned text |
| Helpers.Dedup | src/utils/helpers.py:115-117 | the dict's keys: no repetitions, and exactly the words seen |
| Helpers.Tally | src/utils/helpers.py:115-117 | `word_count.items()`: one item per distinct word in first-occurrence order, with its number of occurrences |
| Helpers.Firsts | src/utils/helpers.py:121 | the words of the items, in item order |
| Helpers.Ranked | src/utils/helpers.py:120 | one ranked item per distinct word |
| Helpers.CountWords | src/utils/helpers.py:115-117 | the counting loop inserts keys in first-occurrence order and stores each word's number of occurrences |
| Helpers.ExtractKeywords | src/utils/helpers.py:99-121 | `extract_keywords` returns the specification `Keywords(text, max_keywords)` |
| Helpers.RankedFromTally | src/utils/helpers.py:120 | the ranked items are a permutation of the tally's items |
| Helpers.RankedCounts | src/utils/helpers.py:115-120 | each ranked word is a candidate, paired with its true count |
| Helpers.RankedDistinct | src/utils/helpers.py:115-120 | no word is ranked twice |
| Helpers.RankedByCount | src/utils/helpers.py:120 | the ranked items come in non-increasing count |
| Helpers.RankedComplete | src/utils/helpers.py:115-120 | every candidate word is ranked |
| Helpers.Keywords | src/utils/helpers.py:99-121 | the specification of `extract_keywords`: never more keywords than distinct candidate words |
| Helpers.KeywordsCount | src/utils/helpers.py:115-121 | exactly `min(max_keywords, n)` keywords for `n` distinct candidates and a non-negative `max_keywords`; for a negative one, `n + max_keywords` clamped at 0 |
| Helpers.KeywordsAreTop | src/utils/helpers.py:115-121 | the keywords are the top ones: a candidate left out is never more frequent than a keyword returned |
| Helpers.OmittedNotMoreFrequent | src/utils/helpers.py:115-121 | in any prefix of the frequency ranking, a word left out is never more frequent than a word kept |
| Helpers.KeywordsAreDistinctCandidates | src/utils/helpers.py:111-121 | the keywords are distinct, each a cleaned-text word longer than two characters and not a stop word; there are at most `max_keywords`; with room for all, every candidate appears |
| Helpers.KeywordsByFrequency | src/utils/helpers.py:115-121 | the keywords come in non-increasing order of frequency |
| Helpers.KeywordsTiesInFirstOccurrenceOrder | src/utils/helpers.py:115-121 | keywords of equal frequency keep the order of their first occurrence in the text |
| Helpers.RankedTiesInTallyOrder | src/utils/helpers.py:115-120 | ranked items of equal count keep the first-occurrence order of their words |
| Deploy.AppTypesRecommendKnownStrategies | src/routes/autonomous_deploy.py:17-90 | every application type recommends a strategy of the strategy table |
| Deploy.BaseStrategy | src/routes/autonomous_deploy.py:181-182 | the type's recommended strategy for a known type, `simple` otherwise; always a table strategy |
| Deploy.ChooseStrategy | src/routes/autonomous_deploy.py:185-195 | the strategy chosen is always a key of the strategy table |
| Deploy.ChooseProvider | src/routes/autonomous_deploy.py:198-203 | the provider chosen is always a key of the provider table |
| Deploy.HighAvailabilityMeansZeroDowntime | src/routes/autonomous_deploy.py:185-191 | high availability with a stated tolerance gets a zero-downtime strategy; canary exactly when tolerance is not low and performance is high |
| Deploy.WithoutHighAvailability | src/routes/autonomous_deploy.py:185-195 | without high availability, or with it but a tolerance other than low, medium or high, a complex application is rolled out and any other gets its type's default |
| Deploy.NullTypeIsNotWebApp | src/routes/autonomous_deploy.py:181-182 | a `type` present as None falls back to `simple`; a missing `type` means web_app (blue_green) |
| Deploy.ProviderRule | src/routes/autonomous_deploy.py:198-203 | a low budget or development environment deploys locally; kubernetes exactly for a Docker-ready app with medium/high tolerance and high availability outside those |
| Deploy.Recommend | src/routes/autonomous_deploy.py:171-214 | strategy and provider are table keys, so both detail lookups succeed; the reasoning is that of the chosen pair |
| Deploy.TableEntriesHaveLines | src/routes/autonomous_deploy.py:243-258 | every table strategy and provider has its reasoning line |
| Deploy.FlagLinesCount | src/routes/autonomous_deploy.py:261-266 | one flag line per true flag among database, static files and Docker readiness |
| Deploy.Reasoning | src/routes/autonomous_deploy.py:237-268 | at most five reasoning lines, ending with the flag lines |
| Deploy.ReasoningShape | src/routes/autonomous_deploy.py:237-268 | exactly the strategy line, then the provider line, then one line per true flag, in that order |
| Deploy.ReasoningDecomposes | src/routes/autonomous_deploy.py:240-268 | the reasoning is the strategy line, the provider line and the flag lines, concatenated |
| Deploy.DatabaseRequired | src/routes/autonomous_deploy.py:136-140 | a database is required exactly when some lowercased dependency contains one of the five indicators |
| Deploy.DatabaseDetectionIgnoresCase | src/routes/autonomous_deploy.py:136-140 | a dependency naming `MySQL` in capitals is detected |
| Deploy.ComplexityCharacterised | src/routes/autonomous_deploy.py:152-164 | high complexity exactly when a database comes with more than 10 dependencies or static files; low exactly when none of the three holds |
| Deploy.Analyze | src/routes/autonomous_deploy.py:94-169 | the analysis records the type and dependencies, detects the database as above, is high complexity by that rule, and is Docker-ready iff a Dockerfile is listed |
| Deploy.UntypedRecommendation | src/routes/autonomous_deploy.py:181-195 | for an untyped analysis without high availability the strategy is rolling exactly for high complexity and simple otherwise |
| Deploy.UntypedStrategy | src/routes/autonomous_deploy.py:181-195 | an untyped analysis without high availability gets rolling or simple, by complexity |
| Deploy.AsJsonLookups | src/routes/autonomous_deploy.py:96-104 | the analysis dictionary holds its type, complexity and Docker flag under their keys |
| Deploy.ExecutionOutcome | src/routes/autonomous_deploy.py:453-471 | status is error exactly when building the steps raises, with no steps; completed exactly when not error and every step succeeded |
| Deploy.ProviderSteps | src/routes/autonomous_deploy.py:455-518 | building the steps raises only for a known provider; a known provider's steps all succeed; any other provider gets a step that is not a success |
| Deploy.ProviderDecidesStatus | src/routes/autonomous_deploy.py:455-465 | an unknown provider gives the single error step and `failed`; a known provider whose values are present completes |
| Deploy.DeploymentExecutor.constructor | src/routes/autonomous_deploy.py:435-436 | the history starts empty |
| Deploy.DeploymentExecutor.ExecuteDeployment | src/routes/autonomous_deploy.py:438-474 | a missing top-level key raises before anything is recorded; otherwise exactly one record is appended and returned, also when a step raises |
| SelfRepair.SystemMonitor.constructor | src/routes/self_repair_simple.py:22-30 | no response times, no requests, no errors |
| SelfRepair.SystemMonitor.RecordRequestMetric | src/routes/self_repair_simple.py:90-102 | the window is the last 100 times of all recorded, ending with the new one; requests +1, errors +1 iff error, so errors never exceed requests |
| SelfRepair.DetectAnomalies | src/routes/self_repair_simple.py:145-205 | every reported anomaly carries its kind's reading, which is above its threshold |
| SelfRepair.CheckShape | src/routes/self_repair_simple.py:151-203 | one check emits at most one anomaly, of its kind and severity with its reading and threshold, exactly when the reading exceeds the threshold |
| SelfRepair.AnomalyFields | src/routes/self_repair_simple.py:151-203 | every anomaly carries its reading above its threshold; cpu is high iff above 90, memory iff above 95; disk and error rate high; response time medium |
| SelfRepair.AnomalyReportedIff | src/routes/self_repair_simple.py:151-203 | a kind is reported exactly when its reading strictly exceeds its threshold |
| SelfRepair.AnomaliesOrdered | src/routes/self_repair_simple.py:145-205 | at most five anomalies, in the order cpu, memory, disk, response time, error rate |
| SelfRepair.OrderedCheck | src/routes/self_repair_simple.py:145-205 | a check placed before higher-ranked anomalies keeps the order |
| SelfRepair.GenerateRepairPlan | src/routes/self_repair_simple.py:285-313 | a missing `type` raises; a type without actions gets `no_actions_available`; then a missing severity raises; otherwise a plan of that type and severity whose actions are exactly the table's, reordered |
| SelfRepair.PlanFrom | src/routes/self_repair_simple.py:285-313 | no actions gives `no_actions_available` with its message; actions without a severity raise; otherwise a plan with that severity |
| SelfRepair.PlanProperties | src/routes/self_repair_simple.py:300-308 | the plan's actions are a permutation of the table entry, sorted by (risk is high, time) and stable; the recommended one has a least key; the total is the sum of the times |
| SelfRepair.DetectedAnomaliesHavePlans | src/routes/self_repair_simple.py:211-297 | every anomaly the monitor can report gets a generated plan, never `no_actions_available` |
| SelfRepair.KindHasActions | src/routes/self_repair_simple.py:211-282 | each anomaly type is a key of the action table with at least one action |
| SelfRepair.ExecutionSteps | src/routes/self_repair_simple.py:352-387 | a mapped action has its four steps; any other gets the two generic steps |
| SelfRepair.RecommendedActionSteps | src/routes/self_repair_simple.py:352-387 | for a slow response time the recommended action is restarting the web server, which has only the generic steps |
| SelfRepair.ResponseTimeActions | src/routes/self_repair_simple.py:254-267 | the response-time entry lists the low-risk 45-second action, then the medium-risk 15-second web-server restart |
| SelfRepair.WebServerRestartHasNoSteps | src/routes/self_repair_simple.py:352-387 | restarting the web server has no steps of its own |
| SelfRepair.QuickerFirst | src/routes/self_repair_simple.py:300 | of two actions with the same risk class, the quicker one sorts first |
| SelfRepair.RepairEngine.constructor | src/routes/self_repair_simple.py:210-283 | the repair history starts empty |
| SelfRepair.RepairEngine.ExecuteRepairAction | src/routes/self_repair_simple.py:315-350 | a missing `action` or `description` raises and records nothing; otherwise every step of the action is completed in order, the run succeeds with its message, and exactly one history entry is appended |
| AssistantSimple.GetCodeTemplate | src/routes/ai_assistant_simple.py:284-299 | succeeds exactly for a template key, returning that template; otherwise the error lists every key |
| AssistantSimple.TemplateKeysRoundTrip | src/routes/ai_assistant_simple.py:284-292 | every listed key finds its own template |
| AssistantSimple.ChooseReply | src/routes/ai_assistant_simple.py:175-186 | each reply kind is chosen exactly when its keyword group is the first to match the lowercased message; an unmatched message is echoed |
| AssistantSimple.PrimosIsRedundant | src/routes/ai_assistant_simple.py:177 | `primos` decides nothing: the first group matches iff `primo` or `prime` occurs |
| AssistantSimple.ReplyIgnoresCase | src/routes/ai_assistant_simple.py:175-186 | messages that lowercase alike get the same kind of reply, and the same reply unless it is an echo |
| AssistantSimple.GenerateCode | src/routes/ai_assistant_simple.py:213-275 | the first keyword in the lowercased description picks the template; only with none does the language pick the skeleton; language, framework and description are echoed |
| AssistantSimple.SimpleAssistant.constructor | src/routes/ai_assistant_simple.py:13-14 | no sessions |
| AssistantSimple.SimpleAssistant.GetAiResponse | src/routes/ai_assistant_simple.py:165-203 | the routed reply; only this session changes, gaining the exchange and keeping its last 20 entries |
| AssistantSimple.SimpleAssistant.RecordExchange | src/routes/ai_assistant_simple.py:169-196 | creates the session if new, appends user then assistant entry, keeps the last 20; other sessions untouched |
| AssistantEnhanced.NeedsInternetSearch | src/routes/ai_assistant_enhanced.py:181-192 | search is needed exactly when some indicator occurs in the lowercased message |
| AssistantEnhanced.NeedsSearchIgnoresCase | src/routes/ai_assistant_enhanced.py:181-192 | lowercasing the message first does not change the decision |
| AssistantEnhanced.CapitalisedQuestionWord | src/routes/ai_assistant_enhanced.py:185-192 | a message with `CÓMO` in capitals needs a search |
| AssistantEnhanced.PunctuationToSpace | src/routes/ai_assistant_enhanced.py:294 | every character outside word characters and whitespace becomes a space, the rest is kept |
| AssistantEnhanced.SearchTerms | src/routes/ai_assistant_enhanced.py:294-297 | every term is a word longer than two characters and not a stop word |
| AssistantEnhanced.ExtractSearchTerms | src/routes/ai_assistant_enhanced.py:287-300 | a message without search terms gives the empty query; otherwise the query starts with the first term |
| AssistantEnhanced.SearchQueryWords | src/routes/ai_assistant_enhanced.py:287-300 | the query splits back into the first five terms in message order: at most five words, each a search term; empty exactly when there is no term |
| AssistantEnhanced.SearchTermsFromMessage | src/routes/ai_assistant_enhanced.py:294-297 | a term occurs in the query list exactly as often as in the cleaned message |
| AssistantEnhanced.TopicResults | src/routes/ai_assistant_enhanced.py:138-144 | at most one result per topic, each a related topic with non-empty text |
| AssistantEnhanced.TopicResultsAppend | src/routes/ai_assistant_enhanced.py:138-144 | the results of one more topic are the earlier ones followed by its own |
| AssistantEnhanced.TopicsLookedAt | src/routes/ai_assistant_enhanced.py:137-138 | at most three topics are looked at |
| AssistantEnhanced.ExtractResults | src/routes/ai_assistant_enhanced.py:126-152 | the result list built step by step equals the specification `SearchResults` |
| AssistantEnhanced.CollectTopics | src/routes/ai_assistant_enhanced.py:137-144 | the loop over the topics yields exactly `TopicResults` |
| AssistantEnhanced.SearchResults | src/routes/ai_assistant_enhanced.py:126-152 | at most five results; the first is an abstract exactly when the reply has a non-empty `Abstract` |
| AssistantEnhanced.TopicFieldsCopied | src/routes/ai_assistant_enhanced.py:137-144 | every topic result comes from a dictionary topic: its `Text` is the content, and the url is its `FirstURL` value, null included, or `""` only when the key is missing |
| AssistantEnhanced.DefaultsOnlyForMissingKeys | src/routes/ai_assistant_enhanced.py:129-152 | the abstract's and the answer's sources are the reply's values when the keys are present, null included; `DuckDuckGo` and `calculation` only when they are missing |
| AssistantEnhanced.NullSourceKept | src/routes/ai_assistant_enhanced.py:129-134 | an abstract whose `AbstractSource` is null gives a result whose source is null |
| AssistantEnhanced.SearchResultsShape | src/routes/ai_assistant_enhanced.py:126-152 | at most one abstract, first, exactly when there is one; at most three topics; at most one answer, last, exactly when there is one; all contents non-empty |
| AssistantEnhanced.EnhancedMessage | src/routes/ai_assistant_enhanced.py:234-239 | the message is extended only when the search succeeded with results, and always starts with the message |
| AssistantEnhanced.BuildPrompt | src/routes/ai_assistant_enhanced.py:229-242 | the prompt carries at most the last 10 history entries, in order |
| AssistantEnhanced.EnhancedAssistant.constructor | src/routes/ai_assistant_enhanced.py:20-22 | no sessions and no searches |
| AssistantEnhanced.EnhancedAssistant.SearchInternet | src/routes/ai_assistant_enhanced.py:108-179 | a 200 reply yields its results and appends one record; another status or an exception yields an error and leaves the history unchanged |
| AssistantEnhanced.EnhancedAssistant.GetSearchHistory | src/routes/ai_assistant_enhanced.py:381-388 | the last 10 searches in order, and the total count |
| AssistantEnhanced.EnhancedAssistant.GetAiResponse | src/routes/ai_assistant_enhanced.py:194-285 | searches iff needed and terms exist; the prompt has the last 10 entries; a completed answer is recorded and the session cut to 20; a failure only opens the session |
| AssistantEnhanced.EnhancedAssistant.Respond | src/routes/ai_assistant_enhanced.py:227-277 | sends the prompt and records a completed answer; a failed completion records nothing more |
| AssistantEnhanced.EnhancedAssistant.Answer | src/routes/ai_assistant_enhanced.py:252-285 | a completed answer is recorded in the session and returned with the search summary; a failure returns the error |
| AssistantEnhanced.EnhancedAssistant.SearchIfNeeded | src/routes/ai_assistant_enhanced.py:204-209 | a search runs exactly when the message needs one and has search terms, with the terms as query; only a successful one is recorded |
| AssistantEnhanced.EnhancedAssistant.OpenSession | src/routes/ai_assistant_enhanced.py:198-199 | a new session is created empty; an existing one is unchanged |
| AssistantEnhanced.EnhancedAssistant.RecordExchange | src/routes/ai_assistant_enhanced.py:255-262 | appends the user entry then the answer, keeps the last 20; other sessions untouched |
| AssistantEnhanced.GetCodeTemplate | src/routes/ai_assistant_enhanced.py:364-379 | succeeds exactly for a template key, returning that template; otherwise the error lists every key |

## Left out

- Real process and container execution: spawning, signals, process groups, the watchdog firing, the
  container SDK and the `echo` of the input into the container. Each backend's behaviour is an outcome
  parameter; only the result shape and the file and timer bookkeeping are modelled.
- Wall-clock time: `execution_time` and its rounding, all timestamps, and ids built from `time.time()`.
  A result records only whether it has a measured time, an unmeasured one (`None`) or none.
- Floating point: `_calculate_confidence`, the averages and ratios of `get_current_metrics`, and the `.1f`
  formatting in anomaly descriptions. Metric readings are `real` values given as input.
- The sampling thread, `start`/`stop_monitoring` and the random fallbacks of `get_current_metrics`.
  The CPU, memory and disk series of the monitor are not part of the model.
- Python's Unicode case tables and character classes beyond U+00FF. `str.lower` and `\w` are modelled for
  ASCII and Latin-1: `\w` covers the letters, digits, `_` and the other alphanumerics of that range
  (`ª`, `²`, `³`, `µ`, `¹`, `º`, `¼`-`¾`). `\d` is the ASCII digits, and `str.isspace` the characters
  Python treats as whitespace.
- The template texts, the canned replies and the deployment step messages. They are represented by their
  keys, their kinds or their step names.
- The enhanced assistant's `generate_code`, both OpenAI calls and the `requests.get` call. The web reply
  and the completion are parameters.
- Flask routing, `jsonify` and HTTP status codes. Only the `/execute` handler's decision logic is
  modelled (`HandleExecute`), together with its 400 answers and its 500 answer.
- `generate_deployment_config`, the Docker and Kubernetes configuration builders and YAML output.
- The file reads of `analyze_application`. The directory listing, the dependency list and the existence of
  a static directory are parameters.
- JSON lists, dicts and floats as field values. The deploy rules test such values only for truthiness and
  equality with strings, and the `/execute` fields treat any non-string alike: it raises (500).
- Request decoding: a body that is not a JSON object. `request.get_json()` on malformed input, and `.get`
  on a list or string body, raise and are answered 500; the model starts from a decoded object or none.
- Sandbox.HandleExecute: the text of the 500 answer (`Error interno: ` and the exception message) is not modelled;
  the answer is `InternalError`.
- AssistantEnhanced.SearchResults: a truthy `RelatedTopics` that is not a list (a dict) makes
  `data['RelatedTopics'][:3]` raise, which the search reports as an error; the model takes the topics as a
  list or none. Non-string `Abstract`, `Answer` and topic `Text` values are modelled as strings.
- SelfRepair.GenerateRepairPlan: an anomaly `type` that is present but not a string is not modelled. A
  hashable one finds no actions and an unhashable one makes the table lookup raise.
- SelfRepair.RepairEngine.ExecuteRepairAction: an `action` field that is present but not a string is not
  modelled; it would be used in the step lookup and the message.
- Deploy.BaseStrategy: an unhashable `type` value (a list or dict) would make `dict.get` raise. The model
  treats every non-string type as unknown.
- SelfRepair.PlanFrom: a table action lacking a key would raise a KeyError inside the sort. The action
  table is constant and complete, so this cannot happen and is not modelled.
- AssistantSimple.SimpleAssistant.GetAiResponse: the `except` branch is not modelled. No step of the
  modelled routing and history raises.
- AssistantEnhanced.EnhancedAssistant.GetAiResponse: the only exception modelled is a failure of the
  completion call. It is the only call in the try block that can fail once the search is a parameter.
- `src/utils/auth.py`, `src/config.py`, `src/routes/ai_assistant.py` and the library-backed helpers
  (`generate_uuid`, `generate_slug`, `format_file_size`, `format_datetime`, `paginate_query`,
  `safe_json_loads`, `is_valid_uuid`, `log_request`, `create_directory_if_not_exists`) are not part of
  this model.

## Findings

| source | as written | input that shows it | evidently intended | confidence | as-written member | corrected member |
|---|---|---|---|---|---|---|
| src/routes/sandbox.py:157-159 | the temporary file is created with `delete=False` before the `try` whose `finally` unlinks it, so a failing `f.write(code)` leaves it on disk | code holding a lone surrogate such as `"\ud800"`, which cannot be encoded when written | the file is removed on every exit path | not executed | Sandbox.CodeSandbox.ExecuteWithSubprocessAsWritten, Sandbox.CodeSandbox.ExecuteCodeAsWritten, Sandbox.LeakOnFailedWrite | Sandbox.CodeSandbox.ExecuteWithSubprocess, Sandbox.CodeSandbox.ExecuteCode |
| src/routes/sandbox.py:85-87 | the same in the container backend: the file is created before the `try` whose `finally` unlinks it | code holding a lone surrogate, with the container runtime reachable | the file is removed on every exit path | not executed | Sandbox.CodeSandbox.ExecuteWithDockerAsWritten, Sandbox.CodeSandbox.ExecuteCodeAsWritten | Sandbox.CodeSandbox.ExecuteWithDocker, Sandbox.CodeSandbox.ExecuteCode |
| src/utils/helpers.py:35-36 | `re.match` with a `$`-anchored pattern also accepts one trailing newline | `"a@b.co\n"` | only the addresses of the pattern are valid | not executed | Helpers.ValidateEmail, Helpers.EmailTrailingNewline | Helpers.ValidateEmailStrict, Helpers.ValidateEmailStrictIff |
| src/utils/helpers.py:40-41 | the same `$` anchoring in the phone pattern | `"123456789\n"` | only the numbers of the pattern are valid | not executed | Helpers.ValidatePhone, Helpers.PhoneTrailingNewline | Helpers.ValidatePhoneStrict, Helpers.ValidatePhoneIff |
