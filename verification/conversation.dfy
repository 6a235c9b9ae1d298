/** The webhook `whatsapp_reply`: input resolution, intent
    classification in fixed priority order, and the per-sender
    pending-meal map `user_last_meal`. Collaborators (transcriber,
    extractor, store outcome, clock) arrive as values in `Env`. */
module Conversation {
  import opened Wrappers
  import opened Text
  import opened Nutrition
  import opened Store

  const SummaryKeywords: seq<string> := ["/summary", "summary", "today", "how much today?", "what did i eat"]
  const ConfirmationKeywords: seq<string> := ["yes", "y", "ok", "save", "yeah", "yup"]
  const RejectionKeywords: seq<string> := ["no", "n", "nope", "cancel", "discard"]

  /** Some summary keyword occurs in the message as a substring, at
      any position and even inside a longer word. */
  predicate IsSummaryRequest(msg: string)
    ensures IsSummaryRequest(msg) <==>
      exists j: nat, i: nat :: j < |SummaryKeywords| && OccursAt(msg, SummaryKeywords[j], i)
  {
    exists j | 0 <= j < |SummaryKeywords| :: Contains(msg, SummaryKeywords[j])
  }

  /** No word is both a confirmation and a rejection. */
  lemma KeywordListsDisjoint()
    ensures forall w :: w in RejectionKeywords ==> w !in ConfirmationKeywords
  {
    forall w | w in RejectionKeywords ensures w !in ConfirmationKeywords {
      assert w[0] == 'n' || w[0] == 'c' || w[0] == 'd';
    }
  }

  /** The inbound form fields: `From` and `Body` (both "" when absent)
      and `NumMedia` (None when absent). */
  datatype Message = Message(sender: string, body: string, numMedia: Option<int>)

  predicate HasMedia(m: Message) {
    m.numMedia.Some? && m.numMedia.value > 0
  }

  /** Python truthiness of an optional string: present and non-empty. */
  predicate Truthy(t: Option<string>) {
    t.Some? && t.value != []
  }

  /** The outcome of input resolution: `incoming_msg`, the normalised
      text that is classified, and `transcribed_text`, the text that may
      be handed to the extractor. */
  datatype Resolved = Resolved(msg: string, text: Option<string>)

  /** Input resolution: with media, a usable transcript replaces the
      message (lower-cased and stripped for matching, as it came for
      extraction) and an unusable one leaves the lowered body with no
      text to extract; without media, a non-empty normalised body is
      both the message and the text to extract. */
  function Resolve(body: string, hasMedia: bool, transcript: Option<string>): (r: Resolved)
    ensures r.msg == if hasMedia && Truthy(transcript) then Normalize(transcript.value) else Normalize(body)
    ensures hasMedia ==> r.text == transcript
    ensures !hasMedia ==> (Truthy(r.text) <==> r.msg != []) && (Truthy(r.text) ==> r.text.value == r.msg)
  {
    var msg := Normalize(body);
    if hasMedia then
      if Truthy(transcript) then
        Resolved(Normalize(transcript.value), transcript)
      else Resolved(msg, transcript)
    else if msg != [] then Resolved(msg, Some(msg))
    else Resolved(msg, None)
  }

  /** Which branch of the webhook fires. */
  datatype Intent = AskSummary | Confirm | Reject | Extract(text: string) | NoInput

  /** The fixed priority order: summary, then confirmation and rejection
      (only with a pending meal, exact match), then extraction of a
      truthy text, else the prompt for input. */
  function Decide(r: Resolved, hasPending: bool): (i: Intent)
    ensures i == AskSummary <==> IsSummaryRequest(r.msg)
    ensures i == Confirm <==> !IsSummaryRequest(r.msg) && hasPending && r.msg in ConfirmationKeywords
    ensures i == Reject <==> !IsSummaryRequest(r.msg) && hasPending && r.msg in RejectionKeywords
    ensures i.Extract? <==>
      && !IsSummaryRequest(r.msg)
      && !(hasPending && (r.msg in ConfirmationKeywords || r.msg in RejectionKeywords))
      && Truthy(r.text)
    ensures i.Extract? ==> Some(i.text) == r.text
    ensures i == NoInput <==>
      && !IsSummaryRequest(r.msg)
      && !(hasPending && (r.msg in ConfirmationKeywords || r.msg in RejectionKeywords))
      && !Truthy(r.text)
  {
    KeywordListsDisjoint();
    if IsSummaryRequest(r.msg) then AskSummary
    else if hasPending && r.msg in ConfirmationKeywords then Confirm
    else if hasPending && r.msg in RejectionKeywords then Reject
    else if Truthy(r.text) then Extract(r.text.value)
    else NoInput
  }

  /** What the collaborators answer for this request: the transcript
      of the voice note, the extractor as a function of the text it is
      given, where the store raises during a save, whether the summary
      query succeeds, and the current day. */
  datatype Env = Env(
    transcript: Option<string>,
    extractor: string -> Option<seq<Item>>,
    fault: Fault,
    queryOk: bool,
    day: int)

  /** The reply the webhook sends, as structured data. */
  datatype Reply =
    | Summary(summary: DailySummary)
    | Saved
    | SaveFailed
    | Discarded
    | Preview(lines: seq<PreviewLine>, total: int)
    | ExtractFailed
    | AskForInput

  /** A reply with the pending map and store log after it. */
  datatype Step = Step(reply: Reply, pending: map<string, seq<Item>>, log: seq<LoggedRow>)

  function IntentOf(pending: map<string, seq<Item>>, m: Message, env: Env): Intent {
    Decide(Resolve(m.body, HasMedia(m), env.transcript), m.sender in pending)
  }

  /** The store rows after a save attempt: the meal appended only when
      the transaction commits. */
  function AfterSave(log: seq<LoggedRow>, sender: string, items: seq<Item>, fault: Fault, day: int): (r: seq<LoggedRow>)
    ensures |log| <= |r| && r[..|log|] == log
    ensures |r| == |log| + (if Commits(|items|, fault) then |items| else 0)
    ensures forall k :: |log| <= k < |r| ==> r[k] == LoggedRow(sender, items[k - |log|], day)
  {
    if Commits(|items|, fault) then log + Stamp(sender, items, day) else log
  }

  /** One message handled on values: the specification of
      `Engine.Handle`. */
  function Transition(pending: map<string, seq<Item>>, log: seq<LoggedRow>, m: Message, env: Env): (st: Step)
    ensures st.reply.Summary? <==> IntentOf(pending, m, env) == AskSummary
    ensures st.reply == Saved || st.reply == SaveFailed <==> IntentOf(pending, m, env) == Confirm
    ensures st.reply == Discarded <==> IntentOf(pending, m, env) == Reject
    ensures st.reply.Preview? || st.reply == ExtractFailed <==> IntentOf(pending, m, env).Extract?
    ensures st.reply == AskForInput <==> IntentOf(pending, m, env) == NoInput
  {
    match IntentOf(pending, m, env)
    case AskSummary =>
      var fetched := if env.queryOk then Some(Today(log, m.sender, env.day)) else None;
      Step(Summary(SummaryOf(fetched)), pending, log)
    case Confirm =>
      var items := pending[m.sender];
      var ok := Commits(|items|, env.fault);
      Step(if ok then Saved else SaveFailed, pending - {m.sender}, AfterSave(log, m.sender, items, env.fault, env.day))
    case Reject =>
      Step(Discarded, pending - {m.sender}, log)
    case Extract(text) =>
      (match env.extractor(text)
       case Some(items) => Step(Preview(Lines(items), Sum(items, Calories)), pending[m.sender := items], log)
       case None => Step(ExtractFailed, pending, log))
    case NoInput =>
      Step(AskForInput, pending, log)
  }

  /** The process state of the webhook: `user_last_meal` and the store. */
  class Engine {
    var pending: map<string, seq<Item>>
    var log: seq<LoggedRow>

    /** A fresh process: nothing pending, and the store holding
        whatever rows it already had. */
    constructor (stored: seq<LoggedRow>)
      ensures pending == map[] && log == stored
    {
      pending := map[];
      log := stored;
    }

    /** `save_meal_to_db`: all items of the meal are inserted in one
        transaction and committed together, or none is; the result is
        true exactly when the commit happened. */
    method SaveMeal(sender: string, items: seq<Item>, fault: Fault, day: int) returns (ok: bool)
      modifies this`log
      ensures ok == Commits(|items|, fault)
      ensures log == AfterSave(old(log), sender, items, fault, day)
    {
      if fault == ConnectFails {
        return false;
      }
      var staged, raised := StageInserts(sender, items, fault, day);
      if raised || fault == CommitFails {
        return false;
      }
      log := log + staged;
      ok := true;
    }

    /** `whatsapp_reply`: handles one inbound message. */
    method Handle(m: Message, env: Env) returns (reply: Reply)
      modifies this
      ensures Step(reply, pending, log) == Transition(old(pending), old(log), m, env)
    {
      var r := Resolve(m.body, HasMedia(m), env.transcript);
      var intent := Decide(r, m.sender in pending);
      assert intent == IntentOf(old(pending), m, env);
      match intent
      case AskSummary =>
        var fetched := if env.queryOk then Some(Today(log, m.sender, env.day)) else None;
        var s := Summarize(fetched);
        reply := Summary(s);
      case Confirm =>
        var ok := SaveMeal(m.sender, pending[m.sender], env.fault, env.day);
        reply := if ok then Saved else SaveFailed;
        pending := pending - {m.sender};
      case Reject =>
        reply := Discarded;
        pending := pending - {m.sender};
      case Extract(text) =>
        var extracted := env.extractor(text);
        if extracted.Some? {
          pending := pending[m.sender := extracted.value];
          var lines, total := BuildPreview(extracted.value);
          assert lines == Lines(extracted.value);
          reply := Preview(lines, total);
        } else {
          reply := ExtractFailed;
        }
      case NoInput =>
        reply := AskForInput;
    }
  }
}
