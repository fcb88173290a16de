# Twenty questions with a prize: the chat route

A model of the request handler of a "guess the secret word" game. The
player asks yes/no questions of a chat model. When the handler sees a
win claim, it mints a prize token to the address the player sent, through
an external minting service. The module declares `questionCount` and
`gameWon` (and the constant `maxQuestions`); the handler also assigns
`secretWord`, a name that is never declared. One `POST` ends in one of
these ways:

- a replay after a win, answered with a fixed message;
- the question that exceeds the budget of 20, meant to be answered with a fixed message and a reset; as written it zeroes the counter and then throws (see "## Findings");
- a win claim: the prize is minted, the handler polls for the transaction hash, and the reply links the transaction;
- otherwise, the conversation goes to the chat model behind a fixed system prompt.

Modules:

- `Optional`: the `Option` datatype.
- `Strings`: JavaScript's `includes`, as a recursive search (`Contains`), and its positional characterisation.
- `Syndicate`: the minting service client.
  - `SendNft`: builds the mint request and splits the answer into success or error.
  - `GetTransactionHash`: the poll loop, a `while` loop over the answers the polls receive.
  - `FirstHash`: the specification of the poll loop.
- `ChatRoute`: the prompt, the win test, the recipient address, the reply texts, and the handler.
  - `Step` is the handler as a function of the old state and the request.
  - `Game` is a class whose fields are the module variables.
  - `Game.Post` updates those fields step by step, with the same tests and early returns as the source, and is proved to agree with `Step`.
- `Runs`: what holds across any sequence of requests handled one after another.

Inputs in place of I/O: a `Request` carries four things:

- the parsed `messages` of the body;
- the `PROJECT_ID` from the environment;
- what the minting service answers to the mint (`MintReply`: a thrown failure, or a status flag and a body);
- what it answers to each successive status poll (`Poll`: a thrown failure, or the first attempt's hash, `""` when absent).

The chat completion is represented by the `Completion` request the route
would send (model, streaming flag, messages, temperature 0.5, 25 tokens).

Behaviours of the code that the model makes explicit:

- A failed mint is not checked. Line 164 reads `data.transactionId` of an error result, which throws. The model answers `Crash(MintResultUnchecked)`, and `gameWon` has already been set at line 157, so the game stays won.
- An empty `messages` list throws at line 131. This happens after the counter has moved. The model answers `Crash(MessagesMissing)` instead of forbidding the input, because the two branches before line 131 handle that input normally.
- The system prompt contains "prize" (line 141). So a request with a single message is a win claim as soon as `questionCount > 1` (`IsWinClaim`).
- `secretWord` is never declared, and the module runs in strict mode. So line 119 throws, and the run-out reply is never sent. The model answers `Crash(SecretWordUndeclared)`, with the counter already zeroed. `StepCorrected` gives the intended behaviour.
- The poll loop only exits with a non-empty hash. So the "unable to retrieve the transaction details" reply (line 178) is never produced (`Step`, `!o.response.PrizeSentNoDetails?`).

Behaviour the code does not have, and the model does not add:

- a `!won` gate on claims beyond the early return;
- a bounded poll loop;
- per-player sessions;
- address validation;
- a randomly chosen secret word;
- a failed mint that leaves the game un-won.

## Model

| member | source | states |
|---|---|---|
| `Strings.Contains` | app/api/chat/route.ts:154 | `includes`: it holds only when the substring fits in the string, and always for the empty substring |
| `Strings.ContainsIff` | app/api/chat/route.ts:154 | the recursive `includes` search holds exactly when the substring occurs at some index |
| `Syndicate.SendNft` | app/api/chat/route.ts:18-67 | the request body fixes the prize contract, chain id 80001 and `mint(address account)`, and carries the project id and the recipient as `args.account`; the result is success exactly when the service answered with an ok status (carrying its body), an error with the body on any other status, and an error with the detail when the call or the parsing threw |
| `Syndicate.FirstHash` | app/api/chat/route.ts:80-94 | the hash the polls end with is never empty |
| `Syndicate.FirstHashFound` | app/api/chat/route.ts:80-92 | when poll `i` is the first to observe a hash, the loop ends with exactly that hash, the earlier failed or hash-less polls being skipped |
| `Syndicate.FirstHashNone` | app/api/chat/route.ts:80-92 | the polls end without a hash exactly when none of them observed one |
| `Syndicate.GetTransactionHash` | app/api/chat/route.ts:70-95 | the loop returns the first non-empty hash the polls observe (failed polls swallowed), and nothing if there is none |
| `ChatRoute.ClaimLineMentionsPrize` | app/api/chat/route.ts:141 | the prompt line on guessing the word with the exact spelling contains the win marker "prize" |
| `ChatRoute.GameContextMentionsPrize` | app/api/chat/route.ts:134-148 | the system prompt itself contains the win marker "prize" |
| `ChatRoute.SecretWordLineNamesSurfboard` | app/api/chat/route.ts:138 | the prompt line that states the secret word names "surfboard" |
| `ChatRoute.GameContextNamesSurfboard` | app/api/chat/route.ts:138 | the prompt hard-codes the secret word "surfboard", independently of the `secretWord` variable |
| `ChatRoute.Combined` | app/api/chat/route.ts:151 | the combined list is the system prompt followed by the client's turns, unchanged |
| `ChatRoute.PreviousTurn` | app/api/chat/route.ts:151-154 | the turn the win test inspects is the system prompt for a one-message conversation, and the client's turn before last otherwise |
| `ChatRoute.ClaimedAddress` | app/api/chat/route.ts:160 | the recipient is the last client turn's content, verbatim |
| `ChatRoute.IsWinClaim` | app/api/chat/route.ts:154 | a win claim holds exactly when `questionCount > 1` and either there is a single message (the turn before it is the prompt, which contains "prize") or the client's turn before last contains "prize" |
| `ChatRoute.ChatCompletion` | app/api/chat/route.ts:191-197 | the completion request is streamed gpt-3.5-turbo at temperature 0.5 with at most 25 tokens, over the given turns |
| `ChatRoute.TransactionUrl` | app/api/chat/route.ts:168 | the link starts with the Mumbai explorer prefix, contains the hash, and gives the hash back after the prefix |
| `ChatRoute.Text` | app/api/chat/route.ts:102-178 | exactly the already-won, run-out and two prize replies have a fixed text; the already-won text is "You already won! Thanks for playing!" and the run-out text "You've run out of questions! So close. Try again!"; both prize texts start with "Thank you! Your prize has been sent to " and name the recipient; the confirmed one contains the link |
| `ChatRoute.PrizeTextLinksTransaction` | app/api/chat/route.ts:167-169 | the prize reply names the recipient address and contains the explorer link and the hash |
| `ChatRoute.Step` | app/api/chat/route.ts:98-203 | the reply is "already won" exactly when the game was already won, and then nothing changes; the question that exceeds 20 zeroes the counter and then crashes on the undeclared `secretWord` (line 119), leaving `gameWon` false; otherwise the counter moves by one first; `secretWord` is never written; the counter stays in 0..20; `gameWon` becomes true exactly by a mint and never turns false; a mint is sent exactly for a win claim, to the last turn's address with the fixed body; a failed mint crashes with the game won; a successful mint is answered with the prize reply for the last turn's address, linking the first hash the polls observe, or, when no poll observes one, by a reply that is still polling; the degraded prize reply never occurs; everything else goes to the chat model with exactly `ChatCompletion(Combined(messages))`, the prompt prepended, and leaves `gameWon` as it was |
| `ChatRoute.RunOutReplyNeverSent` | app/api/chat/route.ts:116-127 | as written, no request ever gets the run-out reply: the one that exceeds 20 crashes instead |
| `ChatRoute.StepCorrected` | app/api/chat/route.ts:116-127 | with `secretWord` declared, the question that exceeds 20 gets the run-out reply (its exact text) and resets to `(0, false, "")`; every other request is handled as written; the counter stays in 0..20 |
| `ChatRoute.Game.constructor` | app/api/chat/route.ts:6-8 | the module starts with `questionCount = 0`, `gameWon = false` and an empty `secretWord` |
| `ChatRoute.Game.Post` | app/api/chat/route.ts:98-188 | the fields and the reply after the call are exactly what `Step` gives for the fields before it, including the crash at line 119; after a win nothing changes; `gameWon` never turns false; a counter in 0..20 stays in 0..20 |
| `Runs.Run` | app/api/chat/route.ts:98-203 | a run of requests gives one reply per request |
| `Runs.RunConcat` | app/api/chat/route.ts:98-203 | handling two runs one after the other is handling their concatenation |
| `Runs.RunKeepsRange` | app/api/chat/route.ts:113-127 | a counter in 0..20 stays in 0..20 after any number of requests |
| `Runs.WonRunIsFrozen` | app/api/chat/route.ts:101-110 | once won, every later request is answered "already won", the state never changes and nothing is minted |
| `Runs.WonIsPermanent` | app/api/chat/route.ts:116-120 | a won game stays won whatever requests follow (the only reset is behind the early return) |
| `Runs.AtMostOnePrize` | app/api/chat/route.ts:154-161 | any run mints at most once, and never once the game is won |
| `Runs.QuestionsAreCounted` | app/api/chat/route.ts:113-154 | within the budget, each question that is not a win claim at its counter value (the one-message opening question included) adds exactly one to the counter, mints nothing and goes to the chat model |
| `Runs.TwentyFirstRequestEndsGame` | app/api/chat/route.ts:113-127 | after 20 questions of a fresh game that are not win claims, the next request, whatever it holds, brings the state back to the initial one and, as written, crashes on line 119 without a reply; with `secretWord` declared it gets the run-out reply |

## Findings

| source | as written | input that shows it | evidently intended | confidence | as-written member | corrected member |
|---|---|---|---|---|---|---|
| app/api/chat/route.ts:119 | assigns `secretWord`, which is declared nowhere; the route is an ES module and so runs in strict mode, where this throws a ReferenceError after line 118 has zeroed the counter, and the run-out text of line 117 is never sent | any request arriving with `gameWon` false and `questionCount` 20, such as the 21st question of a game | `secretWord` declared beside the other module variables, so the run-out reply is sent and the state is reset to `(0, false, "")` | high; not executed | `ChatRoute.RunOutReplyNeverSent` | `ChatRoute.StepCorrected` |

`Step`, `Game.Post` and `Runs` model the code as written. `StepCorrected` is the intended handler, and `Runs.TwentyFirstRequestEndsGame` states both results.

## Left out

- The chat completion call and the stream plumbing (`OpenAIStream`, `StreamingTextResponse`, `TextEncoder`, `ReadableStream`, lines 102-109, 191-202) are foreign library calls. The model records the completion request (`Chat(Completion)`) and the text of each fixed reply (`Text`), not the stream.
- Network I/O is not modelled. This covers the `fetch` calls, JSON parsing, bearer headers, environment variables, the endpoint URLs and the 5-second sleep (lines 24-27, 44-51, 72-77, 82-83, 90). The service's answers are inputs instead (`MintReply`, `Poll`).
- Syndicate.GetTransactionHash: the real loop is unbounded. The model runs over a finite sequence of poll answers and returns `None` when that runs out, which means the real loop would still be polling. `Post` then answers `StillPolling`.
- The transaction id of a successful mint is not passed to the poll loop, because the polls are abstract. A reply body without `transactionId` therefore does not change the model.
- Concurrency is not modelled. The module variables are shared by every request on the edge runtime; the model has one sequential caller.
- A malformed request body (`req.json()` throwing) is not modelled, and neither is a last turn whose `content` is not a string. `Request` carries parsed turns. The unused lower-cased `userMessage` (line 131) is left out; only its throw on an empty list is modelled.
- `secretWord` is never declared in the source. The model keeps it as a field, initially empty, so that the corrected handler has something to reset. As written, nothing ever writes it.
- `console.error` logging is not modelled.
- app/page.tsx and app/layout.tsx are React UI and page metadata, and are not part of this model.
