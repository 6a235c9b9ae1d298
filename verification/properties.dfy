/** What the webhook promises about every message, stated on
    `Conversation.Transition` (which `Engine.Handle` implements). */
module Properties {
  import opened Wrappers
  import opened Text
  import opened Nutrition
  import opened Store
  import opened Conversation

  /** No window of `s` starting at `i` matches `t` when its first letter differs. */
  lemma MissAt(s: string, t: string, i: nat)
    requires |t| > 0 && i + |t| <= |s| && s[i] != t[0]
    ensures !OccursAt(s, t, i)
  {
    assert s[i..i + |t|][0] == s[i];
  }

  /** No confirmation or rejection word contains a summary keyword, so
      the summary check never pre-empts an exact confirmation or
      rejection. */
  lemma KeywordNotSummary(w: string)
    requires w in ConfirmationKeywords || w in RejectionKeywords
    ensures !IsSummaryRequest(w)
  {
    forall k | k in SummaryKeywords ensures !Contains(w, k) {
      if |k| <= |w| {
        forall i: nat | i + |k| <= |w| ensures !OccursAt(w, k, i) {
          MissAt(w, k, i);
        }
      }
    }
  }

  /** Two of the five summary keywords are redundant: "/summary"
      contains "summary" and "how much today?" contains "today". */
  lemma SummaryKeywordsReduce(msg: string)
    ensures IsSummaryRequest(msg) <==>
      Contains(msg, "summary") || Contains(msg, "today") || Contains(msg, "what did i eat")
  {
    if Contains(msg, "/summary") {
      assert OccursAt("/summary", "summary", 1);
      ContainsTransitive(msg, "/summary", "summary");
    }
    if Contains(msg, "how much today?") {
      assert OccursAt("how much today?", "today", 9);
      ContainsTransitive(msg, "how much today?", "today");
    }
    assert SummaryKeywords[1] == "summary" && SummaryKeywords[2] == "today";
    assert SummaryKeywords[4] == "what did i eat";
  }

  /** Matching is by substring, not by word: any message in which a
      keyword occurs, even inside a longer word, is a summary request. */
  lemma KeywordOccurrenceIsSummary(msg: string, j: nat, i: nat)
    requires j < |SummaryKeywords| && OccursAt(msg, SummaryKeywords[j], i)
    ensures IsSummaryRequest(msg)
  {
    assert Contains(msg, SummaryKeywords[j]);
  }

  lemma TodaysIsSummary()
    ensures IsSummaryRequest("todays")
  {
    assert "todays"[0..5] == SummaryKeywords[2];
    KeywordOccurrenceIsSummary("todays", 2, 0);
  }

  /** Any message whose classified text mentions "today", such as a
      meal description "2 eggs for breakfast today", gets the summary and
      is not logged: the pending map and the store are unchanged. */
  lemma MentionOfTodayIsSummary(pending: map<string, seq<Item>>, log: seq<LoggedRow>, m: Message, env: Env, i: nat)
    requires OccursAt(Resolve(m.body, HasMedia(m), env.transcript).msg, "today", i)
    ensures var st := Transition(pending, log, m, env);
      st.reply.Summary? && st.pending == pending && st.log == log
  {
    KeywordOccurrenceIsSummary(Resolve(m.body, HasMedia(m), env.transcript).msg, 2, i);
    SummaryTakesPriority(pending, log, m, env);
  }

  /** A summary request is answered with the summary whatever the
      pending state, and changes neither the pending map nor the store. */
  lemma SummaryTakesPriority(pending: map<string, seq<Item>>, log: seq<LoggedRow>, m: Message, env: Env)
    requires IsSummaryRequest(Resolve(m.body, HasMedia(m), env.transcript).msg)
    ensures var st := Transition(pending, log, m, env);
      && st.reply.Summary?
      && st.pending == pending
      && st.log == log
      && (!env.queryOk ==> st.reply.summary == QueryFailed)
      && (env.queryOk && Today(log, m.sender, env.day) == [] ==> st.reply.summary == NothingLogged)
      && (env.queryOk && Today(log, m.sender, env.day) != [] ==>
            st.reply.summary.Report? && st.reply.summary.rows == Today(log, m.sender, env.day))
  {
  }

  /** An exact confirmation word from a sender with a pending meal saves
      exactly the pending items and removes the entry whether or not the
      save succeeded. */
  lemma ConfirmationSavesPending(pending: map<string, seq<Item>>, log: seq<LoggedRow>, m: Message, env: Env)
    requires m.sender in pending
    requires Resolve(m.body, HasMedia(m), env.transcript).msg in ConfirmationKeywords
    ensures var st := Transition(pending, log, m, env);
      && st.pending == pending - {m.sender}
      && (st.reply == Saved || st.reply == SaveFailed)
      && (st.reply == Saved <==> Commits(|pending[m.sender]|, env.fault))
      && st.log == (if st.reply == Saved then log + Stamp(m.sender, pending[m.sender], env.day) else log)
  {
    KeywordNotSummary(Resolve(m.body, HasMedia(m), env.transcript).msg);
  }

  /** An exact rejection word from a sender with a pending meal removes
      the entry, writes nothing and acknowledges. */
  lemma RejectionDiscards(pending: map<string, seq<Item>>, log: seq<LoggedRow>, m: Message, env: Env)
    requires m.sender in pending
    requires Resolve(m.body, HasMedia(m), env.transcript).msg in RejectionKeywords
    ensures Transition(pending, log, m, env) == Step(Discarded, pending - {m.sender}, log)
  {
    var w := Resolve(m.body, HasMedia(m), env.transcript).msg;
    KeywordNotSummary(w);
    KeywordListsDisjoint();
    assert IntentOf(pending, m, env) == Reject;
  }

  /** A confirmation word from a sender with nothing pending is not a
      confirmation: the text is handed to the extractor and the store is
      not touched. */
  lemma ConfirmWordWithoutPendingIsExtracted(pending: map<string, seq<Item>>, log: seq<LoggedRow>, m: Message, env: Env)
    requires m.sender !in pending && !HasMedia(m)
    requires Normalize(m.body) in ConfirmationKeywords
    ensures IntentOf(pending, m, env) == Extract(Normalize(m.body))
    ensures Transition(pending, log, m, env).log == log
  {
    KeywordNotSummary(Normalize(m.body));
  }

  /** The message that is classified is always in normal form:
      lower-casing and stripping it again changes nothing, whether it
      came from the body or from a transcript. */
  lemma ClassifiedMessageIsNormal(body: string, hasMedia: bool, transcript: Option<string>)
    ensures Normalize(Resolve(body, hasMedia, transcript).msg) == Resolve(body, hasMedia, transcript).msg
  {
    NormalizeIdempotent(body);
    if transcript.Some? {
      NormalizeIdempotent(transcript.value);
    }
  }

  /** A typed message that reaches extraction hands the extractor the
      lower-cased, stripped body. */
  lemma TextIsExtractedNormalized(pending: map<string, seq<Item>>, m: Message, env: Env)
    requires !HasMedia(m)
    requires IntentOf(pending, m, env).Extract?
    ensures IntentOf(pending, m, env).text == Normalize(m.body) != []
  {
  }

  /** A voice note whose transcript reaches extraction hands the
      extractor the transcript exactly as transcribed, while the
      classification used its lower-cased, stripped copy. */
  lemma TranscriptIsExtractedVerbatim(pending: map<string, seq<Item>>, m: Message, env: Env)
    requires HasMedia(m) && Truthy(env.transcript)
    requires IntentOf(pending, m, env).Extract?
    ensures IntentOf(pending, m, env).text == env.transcript.value
    ensures Resolve(m.body, HasMedia(m), env.transcript).msg == Normalize(env.transcript.value)
  {
  }

  /** A voice note that could not be transcribed never reaches the
      extractor; unless its lowered body is a summary request or a
      keyword for a pending meal, the reply is the prompt for input. */
  lemma FailedTranscriptionPrompts(pending: map<string, seq<Item>>, log: seq<LoggedRow>, m: Message, env: Env)
    requires HasMedia(m) && !Truthy(env.transcript)
    ensures !IntentOf(pending, m, env).Extract?
    ensures !IsSummaryRequest(Normalize(m.body))
            && !(m.sender in pending && (Normalize(m.body) in ConfirmationKeywords || Normalize(m.body) in RejectionKeywords))
            ==> Transition(pending, log, m, env) == Step(AskForInput, pending, log)
  {
  }

  /** A successful extraction replaces the sender's pending meal with
      the new items (last one wins) and previews them: one line per item
      in order, and the calorie total. An extraction that yields nothing
      changes nothing. */
  lemma ExtractionReplacesPending(pending: map<string, seq<Item>>, log: seq<LoggedRow>, m: Message, env: Env)
    requires IntentOf(pending, m, env).Extract?
    ensures var st := Transition(pending, log, m, env);
      var got := env.extractor(IntentOf(pending, m, env).text);
      && st.log == log
      && (got.None? ==> st == Step(ExtractFailed, pending, log))
      && (got.Some? ==>
            && st.pending == pending[m.sender := got.value]
            && st.reply.Preview?
            && |st.reply.lines| == |got.value|
            && (forall k :: 0 <= k < |got.value| ==> st.reply.lines[k] == LineOf(got.value[k]))
            && st.reply.total == Sum(got.value, Calories))
  {
  }

  /** Only the sender's entry of the pending map may change, and it may
      only be removed or set to what the extractor returned; the store
      only ever gains this sender's pending meal. Summary and prompt
      replies change nothing at all. */
  lemma OnlySenderEntryChanges(pending: map<string, seq<Item>>, log: seq<LoggedRow>, m: Message, env: Env)
    ensures var st := Transition(pending, log, m, env);
      && (forall s :: s != m.sender ==> (s in st.pending <==> s in pending))
      && (forall s :: s != m.sender && s in pending ==> st.pending[s] == pending[s])
      && (m.sender in st.pending ==>
            (m.sender in pending && st.pending[m.sender] == pending[m.sender])
            || (IntentOf(pending, m, env).Extract?
                && env.extractor(IntentOf(pending, m, env).text) == Some(st.pending[m.sender])))
      && (st.log == log || (m.sender in pending && st.log == log + Stamp(m.sender, pending[m.sender], env.day)))
      && (st.reply.Summary? || st.reply == AskForInput ==> st.pending == pending && st.log == log)
  {
    var st := Transition(pending, log, m, env);
    match IntentOf(pending, m, env)
    case AskSummary =>
      assert st.pending == pending && st.log == log;
    case Confirm =>
      assert st.pending == pending - {m.sender};
    case Reject =>
      assert st.pending == pending - {m.sender} && st.log == log;
    case Extract(text) =>
      assert st.log == log;
    case NoInput =>
      assert st == Step(AskForInput, pending, log);
  }

  /** After a successful confirmation, the sender's daily totals grow by
      exactly the saved meal's totals, and no other sender's "today"
      rows change. */
  lemma SavedMealShowsInSummary(pending: map<string, seq<Item>>, log: seq<LoggedRow>, m: Message, env: Env, c: Column)
    requires Transition(pending, log, m, env).reply == Saved
    ensures m.sender in pending
    ensures Sum(Today(Transition(pending, log, m, env).log, m.sender, env.day), c)
            == Sum(Today(log, m.sender, env.day), c) + Sum(pending[m.sender], c)
    ensures forall s, d :: s != m.sender ==>
              Today(Transition(pending, log, m, env).log, s, d) == Today(log, s, d)
  {
    var items := pending[m.sender];
    var rows := Stamp(m.sender, items, env.day);
    assert Transition(pending, log, m, env).log == log + rows;
    TodayAppend(log, rows, m.sender, env.day);
    TodayOfStamp(m.sender, items, env.day);
    SumAppend(Today(log, m.sender, env.day), items, c);
    forall s, d | s != m.sender ensures Today(log + rows, s, d) == Today(log, s, d) {
      TodayAppend(log, rows, s, d);
      TodayOfOtherSender(s, m.sender, items, env.day, d);
      assert Today(log, s, d) + [] == Today(log, s, d);
    }
  }

  /** Confirming persists exactly the items captured when the meal was
      previewed, whatever the extractor would answer later. */
  lemma ConfirmPersistsCapturedItems(
    pending: map<string, seq<Item>>, log: seq<LoggedRow>,
    m1: Message, env1: Env, m2: Message, env2: Env, items: seq<Item>)
    requires IntentOf(pending, m1, env1).Extract?
    requires env1.extractor(IntentOf(pending, m1, env1).text) == Some(items)
    requires m2.sender == m1.sender
    requires Resolve(m2.body, HasMedia(m2), env2.transcript).msg in ConfirmationKeywords
    ensures var st1 := Transition(pending, log, m1, env1);
      var st2 := Transition(st1.pending, st1.log, m2, env2);
      && m1.sender !in st2.pending
      && st2.log == (if Commits(|items|, env2.fault) then log + Stamp(m1.sender, items, env2.day) else log)
  {
    var st1 := Transition(pending, log, m1, env1);
    ConfirmationSavesPending(st1.pending, st1.log, m2, env2);
  }

  /** Asking for the summary twice with no write in between gives the
      same answer. */
  lemma SummaryIsRepeatable(pending: map<string, seq<Item>>, log: seq<LoggedRow>, m: Message, env: Env)
    requires IntentOf(pending, m, env) == AskSummary
    ensures var st := Transition(pending, log, m, env);
      Transition(st.pending, st.log, m, env) == st
  {
  }
}
