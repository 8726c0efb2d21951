/** The deterministic part of the chat front end in `app.py`: the keyword
    test that decides whether a question refers to earlier exchanges, the
    record made of each run, and the session's bounded history. */
module App {
  import opened Wrappers
  import opened Text
  import opened Agent

  // ---------------------------------------------------------------------------
  // Does the question refer to earlier exchanges?
  // ---------------------------------------------------------------------------

  const HistoryKeywords: seq<string> := ["those", "these", "previous", "last", "same", "that", "them"]

  /** Python's `any(k in text for k in keywords)`. */
  function AnyKeyword(text: string, keywords: seq<string>): (r: bool)
    ensures r <==> exists k :: k in keywords && IsSubstring(k, text)
    decreases |keywords|
  {
    if |keywords| == 0 then false
    else
      assert forall k :: k in keywords <==> k == keywords[0] || k in keywords[1..];
      Contains(keywords[0], text) || AnyKeyword(text, keywords[1..])
  }

  /** `should_use_history`: some keyword occurs anywhere in the lower-cased
      question, inside a longer word too. */
  function ShouldUseHistory(query: string): (r: bool)
    ensures r <==> exists k :: k in HistoryKeywords && IsSubstring(k, Lower(query))
  {
    var queryLower := Lower(query);
    AnyKeyword(queryLower, HistoryKeywords)
  }

  /** Letter case does not matter. */
  lemma ShouldUseHistoryIgnoresCase(query: string)
    ensures ShouldUseHistory(Upper(query)) == ShouldUseHistory(query)
    ensures ShouldUseHistory(Lower(query)) == ShouldUseHistory(query)
  {
    LowerOfUpper(query);
    LowerIdempotent(query);
  }

  /** A question that refers back keeps doing so whatever is written around it. */
  lemma {:induction false} ShouldUseHistoryGrows(before: string, query: string, after: string)
    requires ShouldUseHistory(query)
    ensures ShouldUseHistory(before + query + after)
  {
    var k :| k in HistoryKeywords && IsSubstring(k, Lower(query));
    LowerConcat(before + query, after);
    LowerConcat(before, query);
    SubstringOfConcat(k, Lower(before), Lower(query), Lower(after));
  }

  /** Upper-case cues count: "PREVIOUS" and "That" both trigger. */
  lemma UpperCaseCuesTrigger()
    ensures ShouldUseHistory("PREVIOUS")
    ensures ShouldUseHistory("That")
  {
    assert Lower("PREVIOUS") == "previous";
    assert OccursAt("previous", Lower("PREVIOUS"), 0);
    assert Lower("That") == "that";
    assert OccursAt("that", Lower("That"), 0);
  }

  /** Any question with "PREVIOUS" in it triggers, whatever surrounds it. */
  lemma CueInsideQuestionTriggers(before: string, after: string)
    ensures ShouldUseHistory(before + "PREVIOUS" + after)
  {
    UpperCaseCuesTrigger();
    ShouldUseHistoryGrows(before, "PREVIOUS", after);
  }

  /** Matching is not by whole word: "blast" holds "last", "theme" holds "them". */
  lemma PartialWordsTrigger()
    ensures ShouldUseHistory("blast")
    ensures ShouldUseHistory("theme")
  {
    assert Lower("blast") == "blast";
    assert "blast"[1..5] == "last";
    assert OccursAt("last", Lower("blast"), 1);
    assert Lower("theme") == "theme";
    assert "theme"[0..4] == "them";
    assert OccursAt("them", Lower("theme"), 0);
  }

  /** The empty question never refers back. */
  lemma EmptyQuestionDoesNotTrigger()
    ensures !ShouldUseHistory("")
  {
    forall k | k in HistoryKeywords
      ensures !IsSubstring(k, Lower(""))
    {
      assert |k| > 0;
    }
  }

  // ---------------------------------------------------------------------------
  // The record of one run
  // ---------------------------------------------------------------------------

  /** `result["intermediate_steps"]`: absent from a failure result. */
  function StepsEntry(result: RunResult): (steps: Option<seq<Step>>)
    ensures steps.Some? <==> result.Succeeded?
  {
    match result
    case Succeeded(_, steps) => Some(steps)
    case Failed(_) => None
  }

  /** The history entry built from a run, fields in the source's order. For a
      failed run the lookup of "intermediate_steps" raises a KeyError, so no
      entry is built (`None`). */
  function BuildExchange(query: string, useHistory: bool, result: RunResult): (entry: Option<Exchange>)
    ensures entry.Some? <==> result.Succeeded?
    ensures entry.Some? ==>
      && entry.value.question == query
      && entry.value.answer == result.output
      && entry.value.success
      && entry.value.steps == result.steps
      && entry.value.useHistory == useHistory
  {
    var answer := if result.Succeeded? then result.output else result.error;
    match StepsEntry(result)
    case None => None
    case Some(steps) => Some(Exchange(query, answer, result.Succeeded?, steps, useHistory))
  }

  // ---------------------------------------------------------------------------
  // Bounded history
  // ---------------------------------------------------------------------------

  const MaxHistory: nat := 50

  /** `history[-50:]` when the history is longer than 50, else the history
      itself: the newest entries, in their order. */
  function Truncate<T>(history: seq<T>): (kept: seq<T>)
    ensures |kept| == if |history| > MaxHistory then MaxHistory else |history|
    ensures kept == history[|history| - |kept|..]
  {
    if |history| > MaxHistory then history[|history| - MaxHistory..] else history
  }

  /** One append followed by truncation evicts at most the oldest entry and
      puts the new one last. */
  lemma {:induction false} AppendEvictsOldest<T>(history: seq<T>, entry: T)
    requires |history| <= MaxHistory
    ensures Truncate(history + [entry]) ==
      if |history| < MaxHistory then history + [entry] else history[1..] + [entry]
  {
    var kept := Truncate(history + [entry]);
    if |history| == MaxHistory {
      assert kept == (history + [entry])[1..];
      assert (history + [entry])[1..] == history[1..] + [entry];
    }
  }

  /** Truncating before an append loses nothing that truncating after it
      would keep. */
  lemma {:induction false} TruncateAbsorbs<T>(history: seq<T>, entry: T)
    ensures Truncate(Truncate(history) + [entry]) == Truncate(history + [entry])
  {
    var t := Truncate(history);
    var n := |history|;
    if n > MaxHistory {
      assert t == history[n - MaxHistory..];
      assert Truncate(t + [entry]) == (t + [entry])[1..];
      assert (history + [entry])[n + 1 - MaxHistory..] == history[n + 1 - MaxHistory..] + [entry];
      assert (t + [entry])[1..] == history[n + 1 - MaxHistory..] + [entry];
    }
  }

  /** The history after recording `entries` one run at a time, the last
      entry recorded last. */
  function Replay<T>(history: seq<T>, entries: seq<T>): (replayed: seq<T>)
    ensures |history| <= MaxHistory ==> |replayed| <= MaxHistory
    ensures entries != [] ==> |replayed| > 0 && replayed[|replayed| - 1] == entries[|entries| - 1]
    decreases |entries|
  {
    if entries == [] then history
    else Truncate(Replay(history, entries[..|entries| - 1]) + [entries[|entries| - 1]])
  }

  /** However many runs are recorded, the history is the newest 50 entries of
      everything, in order. */
  lemma {:induction false} ReplayKeepsNewest<T>(history: seq<T>, entries: seq<T>)
    requires |history| <= MaxHistory
    ensures Replay(history, entries) == Truncate(history + entries)
    decreases |entries|
  {
    if entries == [] {
      assert history + entries == history;
    } else {
      var init, last := entries[..|entries| - 1], entries[|entries| - 1];
      ReplayKeepsNewest(history, init);
      TruncateAbsorbs(history + init, last);
      assert history + entries == (history + init) + [last];
    }
  }

  /** Once more than 50 entries have been seen, the history holds exactly 50. */
  lemma ReplayHoldsFifty<T>(history: seq<T>, entries: seq<T>)
    requires |history| <= MaxHistory
    requires |history| + |entries| > MaxHistory
    ensures |Replay(history, entries)| == MaxHistory
  {
    ReplayKeepsNewest(history, entries);
  }

  // ---------------------------------------------------------------------------
  // One rerun of the page script
  // ---------------------------------------------------------------------------

  /** How one rerun of the script ends. */
  datatype Rerun =
    | NoQuestion                       // the input box was empty
    | Recorded(entry: Exchange)        // the run was appended to the history
    | Crashed(result: RunResult)       // the record could not be built

  /** The per-session state `st.session_state.chat_history`. */
  class ChatSession {
    var history: seq<Exchange>

    ghost predicate Valid()
      reads this
    {
      |history| <= MaxHistory
    }

    /** A new session starts with an empty history. */
    constructor ()
      ensures Valid() && history == []
    {
      history := [];
    }

    /** `chat_history.append(entry)`. */
    method Append(entry: Exchange)
      modifies this
      ensures history == old(history) + [entry]
    {
      history := history + [entry];
    }

    /** `chat_history = chat_history[-50:]` when longer than 50. */
    method Trim()
      modifies this
      ensures Valid()
      ensures history == Truncate(old(history))
    {
      if |history| > MaxHistory {
        history := history[|history| - MaxHistory..];
      }
    }

    /** One rerun of the script with the question typed (empty for none) and
        the agent to call. The history decision is made before the call and
        recorded. A failed run raises while its record is built, which ends
        the rerun before the append and before the trim. */
    method Run(query: string, invoke: (string, string) -> AgentReply) returns (outcome: Rerun)
      modifies this
      ensures query == "" ==> outcome == NoQuestion && history == Truncate(old(history))
      ensures query != "" ==>
        var useHistory := ShouldUseHistory(query);
        var result := RunAgent(query, useHistory, Some(old(history)), invoke);
        match result
        case Succeeded(output, steps) =>
          && outcome == Recorded(Exchange(query, output, true, steps, useHistory))
          && history == Truncate(old(history) + [outcome.entry])
        case Failed(_) =>
          && outcome == Crashed(result)
          && history == old(history)
      ensures (!outcome.Crashed? || old(Valid())) ==> Valid()
    {
      if query != "" {
        var useHistory := ShouldUseHistory(query);
        var result := RunAgent(query, useHistory, Some(history), invoke);
        var entry := BuildExchange(query, useHistory, result);
        if entry.None? {
          return Crashed(result);
        }
        Append(entry.value);
        outcome := Recorded(entry.value);
      } else {
        outcome := NoQuestion;
      }
      Trim();
    }
  }

  /** One rerun of a session whose history is within the bound is one step
      of `Replay`: a recorded run replays its entry, and any other rerun
      leaves the history as it was. */
  method RunIsReplayStep(session: ChatSession, query: string, invoke: (string, string) -> AgentReply)
    returns (outcome: Rerun)
    requires session.Valid()
    modifies session
    ensures session.Valid()
    ensures outcome.Recorded? ==> session.history == Replay(old(session.history), [outcome.entry])
    ensures !outcome.Recorded? ==> session.history == old(session.history)
  {
    ghost var before := session.history;
    outcome := session.Run(query, invoke);
    if outcome.Recorded? {
      assert [outcome.entry][..0] == [];
      assert session.history == Replay(before, [outcome.entry]);
    }
  }

  // ---------------------------------------------------------------------------
  // The history decision and the context block together
  // ---------------------------------------------------------------------------

  /** A question with "previous" in it, asked with some history, sends the
      agent a context block. */
  lemma {:induction false} ReferringQuestionGetsContext(query: string, history: seq<Exchange>)
    requires IsSubstring("previous", Lower(query))
    requires history != []
    ensures ShouldUseHistory(query)
    ensures BuildContext(ShouldUseHistory(query), Some(history)) != ""
  {
    assert "previous" in HistoryKeywords;
  }

  /** A question with none of the keywords sends no context, whatever the
      history holds. */
  lemma NonReferringQuestionGetsNone(query: string, history: seq<Exchange>)
    requires forall k :: k in HistoryKeywords ==> !IsSubstring(k, Lower(query))
    ensures BuildContext(ShouldUseHistory(query), Some(history)) == ""
  {
  }
}
