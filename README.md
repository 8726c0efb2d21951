# SQL query agent: the deterministic core

This project models the deterministic logic of a chat front end over a SQL agent. A user asks questions about a small analytical database. The agent writes SQL, runs it, and answers. Most of the repository is UI wiring, model prompts and library set-up. The parts modelled here are the pieces of plain logic between those calls:

- **History cue** (`app.py`): `should_use_history` lower-cases the question and checks whether any of seven keywords ("those", "these", "previous", "last", "same", "that", "them") occurs in it as a substring. Module `App`: `ShouldUseHistory`, built on `Text.Contains` and `AnyKeyword`.
- **Session memory** (`app.py`): each script rerun with a question decides whether to use history, calls the agent, builds a record of the exchange and appends it. Every rerun that does not crash then cuts the history to its last 50 entries, including a rerun with no question. Module `App`: class `ChatSession` (field `history`, methods `Append`, `Trim`, `Run`), `BuildExchange` and `Truncate`.
- **Running the agent** (`agent.py`): `run_agent` builds the prior-Q&A context block and calls the agent with the question and that block. It turns a return or an exception into a `success`/`output`/`error` result. Module `Agent`: `BuildContext`, `ShapeReply` and `RunAgent`. The agent call is a function parameter `invoke(question, context)`.
- **Query executor tool** (`tools.py`): `db_query_tool` passes the query to the store. An empty store reply becomes a fixed retry message, and any other reply is returned unchanged. The tool is defined and put in the `tools` list at `agent.py:39`, but that list is never passed on: the agent is built from the SQL toolkit alone (`agent.py:41-47`), so it runs SQL through the toolkit's own query tool. The model covers the tool's mapping as the code writes it. Module `Tools`: `ToolReply` and `DbQueryTool`. The store call is a function parameter `runNoThrow`.

Files: `wrappers.dfy` (Option), `text.dfy` (ASCII case folding, substring search, `join`), `tools.dfy`, `agent.dfy` and `app.dfy`.

Two behaviours of the code worth noting, where one might expect a statement gate in the query executor and a recorded failure. The model follows the code:

- **No programmatic write-statement gate.** `db_query_tool` hands the query text straight to the store (`tools.py:23`). The ban on INSERT, UPDATE, DELETE and DROP exists only as an instruction in the agent's prompt (`agent.py:27`). `Tools.WriteStatementsAreForwarded` states that `db_query_tool` hands every query text, DELETE and DROP statements included, to the store unchanged, and maps the store's reply as for any other query. The agent does not call this tool (see above). The query tool of the library toolkit it does use is not part of this model, so nothing here says whether that tool has a gate.
- **A failed run is never recorded.** The failure result of `run_agent` has no `intermediate_steps` key (`agent.py:66-69`). The record at `app.py:104` reads that key unconditionally, so building the record raises a KeyError. The rerun stops there: nothing is appended, and the truncation at `app.py:108-109` does not run. In the model, `BuildExchange` returns `None` for a failed result. `ChatSession.Run` then returns `Crashed` and leaves the history as it was. Only successful runs are appended.

## Model

| member | source | states |
|---|---|---|
| `Text.Lower` | app.py:43 | `query.lower()` on ASCII letters: same length, each character folded on its own, A–Z to a–z and everything else unchanged |
| `Text.Join` | agent.py:53 | `sep.join(parts)`: empty for no parts, otherwise the text starts with the first part |
| `Text.Contains` | app.py:44 | `needle in hay` is true exactly when the needle occurs at some position of the text (plain substring, not whole word) |
| `Text.JoinConcat` | agent.py:53 | `sep.join(a + b)` is `join(a) + sep + join(b)` for non-empty parts: no part is dropped or reordered |
| `Text.JoinContainsPart` | agent.py:53 | every part occurs as a substring of the joined text |
| `App.AnyKeyword` | app.py:44 | `any(k in text for k in keywords)` is true exactly when some keyword occurs as a substring of the text |
| `App.ShouldUseHistory` | app.py:41-44 | true exactly when one of the seven keywords occurs as a substring of the lower-cased question |
| `App.ShouldUseHistoryIgnoresCase` | app.py:43 | upper-casing or lower-casing the question never changes the decision |
| `App.ShouldUseHistoryGrows` | app.py:44 | once a question refers back, any text added before or after it still refers back |
| `App.UpperCaseCuesTrigger` | app.py:42-43 | the questions "PREVIOUS" and "That" refer back |
| `App.CueInsideQuestionTriggers` | app.py:43-44 | any question containing "PREVIOUS" refers back, whatever surrounds it |
| `App.PartialWordsTrigger` | app.py:44 | "blast" (holding "last") and "theme" (holding "them") refer back: matching is not by whole word |
| `App.EmptyQuestionDoesNotTrigger` | app.py:42-44 | the empty question does not refer back |
| `App.StepsEntry` | app.py:104 | `result["intermediate_steps"]` exists exactly for a successful result |
| `App.BuildExchange` | app.py:100-106 | a record is built exactly for a successful result; it copies the question, answer = output, success, the steps and the history decision unchanged |
| `App.Truncate` | app.py:108-109 | keeps min(length, 50) entries, and they are the newest ones in their original order (a suffix); a history of 50 or fewer is unchanged |
| `App.AppendEvictsOldest` | app.py:100-109 | appending to a history of at most 50 and truncating puts the new entry last and evicts only the oldest entry, and only when the history was full |
| `App.TruncateAbsorbs` | app.py:108-109 | truncating before an append keeps the same entries as truncating after it |
| `App.Replay` | app.py:100-109 | the history after a sequence of recorded reruns, each appending one entry and truncating; it stays within 50 when it starts within 50, and the newest entry is last |
| `App.RunIsReplayStep` | app.py:73-109 | one rerun of a session within the bound keeps it within the bound; a recorded run is one step of `Replay` with its entry, and any other rerun leaves the history unchanged |
| `App.ReplayKeepsNewest` | app.py:100-109 | after any number of recorded runs, starting from a history of at most 50, the history is the newest 50 of all entries in order |
| `App.ReplayHoldsFifty` | app.py:108-109 | once more than 50 entries have been seen, the history holds exactly 50 |
| `App.ChatSession.constructor` | app.py:31-32 | a new session has an empty history |
| `App.ChatSession.Append` | app.py:100 | the history gains the entry at its end |
| `App.ChatSession.Trim` | app.py:108-109 | the history becomes its truncation and holds at most 50 entries |
| `App.ChatSession.Run` | app.py:73-109 | with no question, only the truncation runs; otherwise the agent gets the question and the history decision made before the call; a success is appended and the history truncated, while a failure leaves the history as it was |
| `App.ReferringQuestionGetsContext` | agent.py:51-55 | a question containing "previous", asked with a non-empty history, gets a non-empty context block |
| `App.NonReferringQuestionGetsNone` | agent.py:51-52 | a question with none of the keywords gets an empty context block, whatever the history |
| `Agent.RenderExchange` | agent.py:54 | one entry's line starts with "Q: " + question + "\nA: " and ends with the answer, with nothing else in it |
| `Agent.RenderAll` | agent.py:54 | one line per history entry, in order, each "Q: question\nA: answer" |
| `Agent.RenderAllConcat` | agent.py:54 | rendering a concatenated history is rendering each part |
| `Agent.BuildContext` | agent.py:51-55 | the block is non-empty exactly when history is asked for and is present and non-empty; then it is the header, the rendered entries joined by line breaks, and the footer |
| `Agent.ContextQuotesEveryEntry` | agent.py:53-55 | every history entry is quoted in the context block |
| `Agent.ContextKeepsOrder` | agent.py:53-55 | older entries come before newer ones in the block, separated by one line break |
| `Agent.SingleEntryContext` | agent.py:53-55 | the exact block for a one-entry history |
| `Agent.ShapeReply` | agent.py:56-69 | success exactly when the agent returned a result with an output; output copied; missing steps default to none; an exception (or a missing output key) gives "Error: " + its text |
| `Agent.RunAgent` | agent.py:49-69 | the question goes to the agent unchanged with the context block; without history (not asked for, absent or empty) the block is empty; every error starts with "Error: " |
| `Tools.ToolReply` | tools.py:24-26 | never empty; an empty store reply becomes the retry message; a non-empty one is returned unchanged |
| `Tools.DbQueryTool` | tools.py:21-26 | the store's reply to the unmodified query comes back unchanged when non-empty, and as the retry message when empty |
| `Tools.RetryMessageExactly` | tools.py:24-26 | the tool answers the retry message exactly when the store gave nothing or gave that very text |
| `Tools.WriteStatementsAreForwarded` | tools.py:23-26 | for every query text, DML included, the reply is the store's reply to that unmodified text, mapped as for any query: unchanged when non-empty, the retry message when empty |
| `Tools.ReplyDependsOnlyOnStore` | tools.py:23-26 | the tool's reply depends only on the store's reply to that exact query text |

## Left out

- Page set-up, styling, the sidebar and chat rendering (`app.py:1-39`, `46-98`): user interface only.
- Construction of the model, toolkit, prompt and agent (`agent.py:1-47`, `tools.py:1-18`): foreign library objects and module-level singletons.
- Tools.DbQueryTool: modelled as `tools.py:21-26` writes it. The tool is listed at `agent.py:39`, but `create_sql_agent` receives only the toolkit (`agent.py:41-47`). The agent never reaches this tool or its retry message, and the model does not claim that it does.
- The `query_check` chain (`tools.py:28-43`): it is an instruction to a language model, not code, so there is nothing deterministic to verify (no idempotence either).
- The agent's tool-calling and retry loop: it lives inside the library's `create_sql_agent` and is not visible. The agent is the parameter `invoke`, and the repository has no retry budget to model.
- The internals of `db.run_no_throw` and `agent.invoke`: parameters of the model. The store's reply is modelled as text, which is what `run_no_throw` returns by default.
- `to_db.py`: a one-off CSV-to-SQLite loader that does only file and database I/O.
- The demo block under `__main__` (`agent.py:71-78`): console output only.
- Text.Lower: models `str.lower()` on ASCII letters only. Full Unicode folding can change a string's length. No non-ASCII character folds into one of the all-ASCII keywords in a way that creates a match, so the history decision is unaffected for the letters that matter.
- App.ChatSession.Run: Streamlit's display of the KeyError raised for a failed run is not modelled. The model only reports it as the `Crashed` outcome, with the history unchanged.
- App.ChatSession.Run: the input box's "no input" value (`None`) is modelled as the empty string, which the source treats the same way (`if query:`).
- Agent.ShapeReply: only the exception's message text is modelled, not its type. The output is assumed to be text.
