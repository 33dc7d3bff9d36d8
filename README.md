# Reply orchestrator of the Reddit Conversation Laboratory, in Dafny

This project models the decision logic of `code/gai_interface.py`:

- `get_ai_reply` turns a chat history and bot instructions into one reply text. It runs these steps in order:
  - the interaction ceiling, which returns a goodbye text;
  - a whitespace word-count estimate of the context size;
  - recursive truncation: while the size is over budget, drop the oldest message and append the clause " You are in the middle of a conversation with the user." to the instructions; a lone message that is still over budget gets a fixed "too long" notice;
  - the dispatch list `[system entry] + messages`;
  - the OpenAI or Claude request;
  - the mapping of every provider outcome to a text.
- `list_available_models` flattens the configured platform-to-models mapping into (platform, model) pairs.

Files:

- `words.dfy` (module `Words`) models Python's `str.split()` with no argument, which the size estimate counts with. `Split` yields the maximal runs of non-whitespace characters. The whitespace set is the one for which `str.isspace` holds (Unicode 15): U+0009–U+000D, U+001C–U+0020, U+0085, U+00A0, U+1680, U+2000–U+200A, U+2028, U+2029, U+202F, U+205F and U+3000.
- `gai_interface.dfy` (module `GaiInterface`) models `get_ai_reply` as four stages:
  - `Prepare`: steps 1–3, a recursive function that decreases on the history length. Its behaviour is stated by four lemmas, one per outcome: `PrepareGoodbye`, `PrepareFitsSuffix`, `PrepareFitsFirst` and `PrepareTooLong`;
  - `Route`: the dispatch list and the platform branch;
  - `Decide`: the two composed;
  - `GetAiReply`: the final text.

  The loop that sums word counts is the method `EstimateSize`. `list_available_models` is the method `ListAvailableModels`, with its nested loops. Each method is proved equal to a recursive specification function (`ContextSize`, `Flatten`), and the properties are proved about those functions.

Python truthiness is written out:

- an optional integer is truthy when present and non-zero;
- the goodbye message is used when present and non-empty;
- the next round's length is `conversation_length - 1` when truthy and `None` otherwise, so a length of 0 becomes `None`.

Inputs the code takes from the environment are parameters instead:

- which provider clients exist (`Clients`), because they depend on API keys read at start-up;
- what the provider call yields (`ProviderOutcome`). That is a reply text or an exception class: `openai.BadRequestError`, `anthropic.BadRequestError`, or any other exception.

`Prepare` takes the appended clause as a parameter. `Decide` passes the source's `Clause`. The truncation lemmas hold for any clause. The clause is built as `Spaced(ClauseWordList)`, the eleven words each preceded by one space, which is exactly the source's string.

The model follows the code as written, including these easily missed behaviours:

- Only `openai.BadRequestError` gets the "I can't figure out how to respond" text (code/gai_interface.py:102-104). The Anthropic SDK's `BadRequestError` is a different class. It falls through to the generic "I encountered an error" text (lines 105-107). `OutcomeText` states this.
- The goodbye is triggered by `max_interactions` and `conversation_length` alone, both truthy. A missing or empty `goodbye_message` gives "Thank you for the conversation." (line 53).
- The Claude branch drops every entry whose role is "system", including any in the caller's history (line 90). The OpenAI branch keeps them.
- An empty history is accepted when it is within budget: the dispatch list is then just the system entry. An empty history over budget and below the ceiling makes the recursion unbounded. Python stops it with `RecursionError`, which escapes to the caller because the recursive call comes before the `try` (code/gai_interface.py:66-75). `Prepare` excludes that one case by its precondition `Terminates`.

## Model

| member | source | states |
|---|---|---|
| `Words.SplitCountsWordStarts` | code/gai_interface.py:56-58 | The number of words `split()` returns equals the number of positions that start a word: a non-whitespace character that is first or follows whitespace. |
| `Words.SplitKeepsNonSpace` | code/gai_interface.py:56-58 | Joining the words of `split()` gives back exactly the non-whitespace characters of the string, in order. |
| `Words.SplitWordsAreRuns` | code/gai_interface.py:56-58 | Every word `split()` returns is non-empty and contains no whitespace. |
| `Words.WordCountConcat` | code/gai_interface.py:56 | Word counts add up across a join whose right part starts with whitespace, as the appended clause does. |
| `Words.SpacedWordCount` | code/gai_interface.py:67 | Words joined with a leading space each count as exactly one word apiece, and the result starts with whitespace. |
| `GaiInterface.EstimateSize` | code/gai_interface.py:56-58 | The accumulating loop returns the word count of the instructions plus the word counts of every message's content. |
| `GaiInterface.NextLengthKeepsBelowLimit` | code/gai_interface.py:52-70 | Passing `conversation_length - 1` (or None) to the next round never makes the ceiling test true when it was false. |
| `GaiInterface.PrepareGoodbye` | code/gai_interface.py:52-53 | The goodbye is the result exactly when the first round's ceiling test holds. Its text is the non-empty goodbye message, or else "Thank you for the conversation.". A later round never produces it. |
| `GaiInterface.PrepareFitsSuffix` | code/gai_interface.py:61-70 | A dispatched working set is the history minus its k oldest messages, never empty for a non-empty history. The instructions are the original followed by k copies of the clause. |
| `GaiInterface.PrepareFitsFirst` | code/gai_interface.py:61-70 | A dispatched working set is never longer than the history. The k rounds that ran form the first round count at which the estimated size is within `max_tokens`. Every smaller count was over budget. |
| `GaiInterface.PrepareTooLong` | code/gai_interface.py:61-63 | The "too long" notice comes exactly when the ceiling was not reached, the history is non-empty, and no suffix down to the last message alone fits, each with its clauses appended. |
| `GaiInterface.AllOverShift` | code/gai_interface.py:61-70 | Nothing fits the budget exactly when the whole history does not and nothing fits after one round of truncation. |
| `GaiInterface.FirstFitShift` | code/gai_interface.py:66-70 | A first fitting round count after one round is, counted from the original call, the first fitting count plus one. |
| `GaiInterface.RoundSize` | code/gai_interface.py:66-67 | One truncation round changes the size estimate by minus the dropped message's words plus eleven. |
| `GaiInterface.RepeatedClauseWords` | code/gai_interface.py:67 | After k rounds the instructions carry exactly 11·k more words than the original. |
| `GaiInterface.RoundCanGrowSize` | code/gai_interface.py:66-70 | A round can increase the size estimate (dropping an empty message), so the recursion terminates by history length, not by size. |
| `GaiInterface.ClauseWords` | code/gai_interface.py:67 | The appended clause has eleven words and starts with whitespace. |
| `GaiInterface.WithoutSystem` | code/gai_interface.py:90 | An entry occurs in the filtered list exactly when it occurs in the input with a role other than "system", and the filtered list is no longer than its input. |
| `GaiInterface.WithoutSystemSingle` | code/gai_interface.py:90 | A single entry is kept when its role is not "system" and dropped when it is. |
| `GaiInterface.WithoutSystemConcat` | code/gai_interface.py:90 | Filtering a joined list joins the filtered parts. With the single-entry case, this fixes the Claude list as the non-system entries in their original order, each as often as it occurs. |
| `GaiInterface.WithoutSystemKeepsConversation` | code/gai_interface.py:90 | A list with no system entries passes the filter unchanged, order included. |
| `GaiInterface.Route` | code/gai_interface.py:73-100 | A local "Error occurred." is returned exactly when the platform is neither openai with its client nor claude with its client. OpenAI gets `[system entry] + messages`. Claude gets model, 1024, the instructions as `system`, and the messages without system entries. |
| `GaiInterface.OutcomeText` | code/gai_interface.py:102-109 | A provider reply is returned as is. `openai.BadRequestError` gives the "can't figure out" text. Every other exception gives the "encountered an error" text. |
| `GaiInterface.LocalTextsDistinct` | code/gai_interface.py:63-107 | The too-long notice, "Error occurred." and the two failure texts are pairwise distinct. |
| `GaiInterface.Decide` | code/gai_interface.py:52-73 | The goodbye comes whenever the ceiling is reached. A lone over-budget message gets the too-long notice. A history already within budget goes to the provider unchanged. |
| `GaiInterface.GetAiReply` | code/gai_interface.py:33-109 | Every path ends in a text: the goodbye, the too-long notice, "Error occurred." for a missing client or unknown platform, or the mapped provider outcome. |
| `GaiInterface.DispatchesFirstFittingSuffix` | code/gai_interface.py:61-82 | When k is the first round count at which the size fits, the provider is asked with the last \|messages\| − k messages and the instructions plus k clauses. |
| `GaiInterface.NothingFitsIsTooLong` | code/gai_interface.py:61-63 | When no suffix fits, the answer is the too-long notice and no provider is called. |
| `GaiInterface.PairsMembership` | code/gai_interface.py:125-126 | The pairs one platform contributes, against which the inner loop is proved, are exactly that platform paired with each of its models. |
| `GaiInterface.FlattenLength` | code/gai_interface.py:122-127 | The listing has one pair per configured model: its length is the sum of the list lengths. |
| `GaiInterface.FlattenMembership` | code/gai_interface.py:122-127 | A (platform, model) pair is listed exactly when the model is in that platform's list. |
| `GaiInterface.ListAvailableModels` | code/gai_interface.py:122-127 | Without a 'gai_models' key the result is empty. Otherwise it is every platform's pairs, platform after platform in mapping order and model after model in list order. |

## Left out

- The OpenAI and Anthropic SDK calls and the unpacking of their responses (code/gai_interface.py:80-83, 91-96) are foreign library calls. Their result is the input `ProviderOutcome`. A `None` message content returned by OpenAI is not modelled; a reply is always a string here.
- Creating the provider clients from API keys (code/gai_interface.py:15-30) and every `logging` call are process-global I/O. Client presence is the input `Clients`.
- Python's recursion limit is not modelled. A history of more than about a thousand messages that stays over budget would raise `RecursionError` in the source.
- `GaiInterface.Prepare`, `GaiInterface.Decide` and `GaiInterface.GetAiReply` require `Terminates`, so they say nothing about an empty history that is over budget and below the ceiling. On that input the source recurses without bound and raises `RecursionError` to its caller (code/gai_interface.py:66-70).
- Exceptions from malformed input are excluded by the types: a message without 'role' or 'content', or non-string contents.
- The default `max_tokens=7000` is not modelled; callers of the model always pass the budget.
- The configuration is a Python dict. It is modelled as the ordered list of its 'gai_models' entries, which a dict's insertion order makes faithful. Other configuration keys play no part. Duplicate platform keys, impossible in a dict, are representable and harmless.
- `code/auth.py` only reads environment variables, and `code/test_prompt.py` is interactive console glue. `test_file_locking.py` tests operating-system file locking across processes. None of these is part of this model.
