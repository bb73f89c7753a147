/**
 * The side effects of the wrap-up tools `send_session_summary`,
 * `send_review_summary` and `send_test_email`: messages published to the room's
 * chat, the summary file, and the emails handed to the email service.
 */
module Wrapup {
  import opened Wrappers
  import opened EmailStatus
  import opened SummaryStore

  /** The topic of the room's chat, where summaries are published. */
  const CHAT_TOPIC := "lk.chat"

  datatype ChatMessage = ChatMessage(topic: string, text: string)

  /** One externally visible effect, in the order the tools perform them. */
  datatype Effect =
    | Chat(message: ChatMessage)
    | SummaryWrite(summary: string)
    | EmailSend(email: Email)

  function EmailEffects(emails: seq<Email>): (effects: seq<Effect>)
    ensures |effects| == |emails|
    ensures forall i :: 0 <= i < |emails| ==> effects[i] == EmailSend(emails[i])
  {
    if emails == [] then [] else [EmailSend(emails[0])] + EmailEffects(emails[1..])
  }

  /** The world one agent process acts on. */
  class World {
    /** Messages published to the room's chat, oldest first. */
    var chat: seq<ChatMessage>
    /** data/latest_summary.json. */
    var summaryFile: SummaryFile
    /** Emails handed to `resend.Emails.send`, whether or not the call raised. */
    var emails: seq<Email>
    /** Every effect above, in the order it happened. */
    ghost var trace: seq<Effect>

    constructor (file: SummaryFile)
      ensures chat == [] && emails == [] && trace == [] && summaryFile == file
    {
      chat, emails, trace, summaryFile := [], [], [], file;
    }

    /**
     * `send_session_summary`: publishes the summary to the chat, then
     * overwrites the summary file, then emails it when configured. The chat
     * message and the file write happen whatever the email does.
     */
    method SendSessionSummary(summary: string, config: EmailConfig, outcome: SendOutcome)
      returns (status: string)
      modifies this
      ensures chat == old(chat) + [ChatMessage(CHAT_TOPIC, summary)]
      ensures summaryFile == Written(summary)
      ensures emails == old(emails) + Attempted(config, Subject(SessionSummary), summary)
      ensures trace == old(trace) + [Chat(ChatMessage(CHAT_TOPIC, summary)), SummaryWrite(summary)]
                         + EmailEffects(Attempted(config, Subject(SessionSummary), summary))
      ensures status == WrapUpStatus(SessionSummary, Deliver(config, outcome))
    {
      var message := ChatMessage(CHAT_TOPIC, summary);
      chat := chat + [message];
      trace := trace + [Chat(message)];

      summaryFile := Written(summary);
      trace := trace + [SummaryWrite(summary)];

      status := SendSummaryEmail(SessionSummary, summary, config, outcome);
    }

    /**
     * `send_review_summary`: publishes the summary to the chat, then emails it
     * when configured; the summary file is left as it was.
     */
    method SendReviewSummary(summary: string, config: EmailConfig, outcome: SendOutcome)
      returns (status: string)
      modifies this
      ensures chat == old(chat) + [ChatMessage(CHAT_TOPIC, summary)]
      ensures summaryFile == old(summaryFile)
      ensures emails == old(emails) + Attempted(config, Subject(ReviewSummary), summary)
      ensures trace == old(trace) + [Chat(ChatMessage(CHAT_TOPIC, summary))]
                         + EmailEffects(Attempted(config, Subject(ReviewSummary), summary))
      ensures status == WrapUpStatus(ReviewSummary, Deliver(config, outcome))
    {
      var message := ChatMessage(CHAT_TOPIC, summary);
      chat := chat + [message];
      trace := trace + [Chat(message)];

      status := SendSummaryEmail(ReviewSummary, summary, config, outcome);
    }

    /** The email step the two summary tools share. */
    method SendSummaryEmail(kind: SummaryKind, summary: string, config: EmailConfig, outcome: SendOutcome)
      returns (status: string)
      modifies this`emails, this`trace
      ensures emails == old(emails) + Attempted(config, Subject(kind), summary)
      ensures trace == old(trace) + EmailEffects(Attempted(config, Subject(kind), summary))
      ensures status == WrapUpStatus(kind, Deliver(config, outcome))
    {
      if Configured(config) {
        var email := Email(SENDER, config.emailTo.value, Subject(kind), summary);
        emails := emails + [email];
        trace := trace + [EmailSend(email)];
      }
      status := WrapUpStatus(kind, Deliver(config, outcome));
    }

    /** `send_test_email`: emails a fixed test message when configured; no chat, no file. */
    method SendTestEmail(config: EmailConfig, outcome: SendOutcome) returns (status: string)
      modifies this`emails, this`trace
      ensures emails == old(emails) + Attempted(config, TEST_SUBJECT, TEST_TEXT)
      ensures trace == old(trace) + EmailEffects(Attempted(config, TEST_SUBJECT, TEST_TEXT))
      ensures status == TestEmailStatus(config, outcome)
    {
      if Configured(config) {
        var email := Email(SENDER, config.emailTo.value, TEST_SUBJECT, TEST_TEXT);
        emails := emails + [email];
        trace := trace + [EmailSend(email)];
      }
      status := TestEmailStatus(config, outcome);
    }
  }

  /**
   * A planning wrap-up followed by a review agent's construction: whatever
   * the file held before and whatever the email did, the review agent is
   * instructed with exactly the summary just written, and the planning
   * status reports the email outcome.
   */
  method SummaryHandoff(prior: SummaryFile, summary: string, config: EmailConfig, outcome: SendOutcome, reviewPrompt: string)
    returns (status: string, instructions: Result<string, string>)
    ensures instructions == Success(reviewPrompt + COMMITMENTS_HEADING + summary)
    ensures Configured(config) && outcome.Accepted? ==>
              status == "Summary sent to chat and emailed to " + config.emailTo.value
    ensures Configured(config) && outcome.Raised? ==>
              status == "Summary sent to chat. Email failed: " + outcome.message
    ensures !Configured(config) ==>
              status == "Summary sent to chat" + EMAIL_SKIPPED
  {
    var world := new World(prior);
    status := world.SendSessionSummary(summary, config, outcome);
    instructions := ReviewInstructions(reviewPrompt, world.summaryFile);
    SessionStatusText(config, outcome);
  }

  /** The session-summary status for each email outcome, spelled out. */
  lemma SessionStatusText(config: EmailConfig, outcome: SendOutcome)
    ensures Configured(config) && outcome.Accepted? ==>
              WrapUpStatus(SessionSummary, Deliver(config, outcome))
              == "Summary sent to chat and emailed to " + config.emailTo.value
    ensures Configured(config) && outcome.Raised? ==>
              WrapUpStatus(SessionSummary, Deliver(config, outcome))
              == "Summary sent to chat. Email failed: " + outcome.message
    ensures !Configured(config) ==>
              WrapUpStatus(SessionSummary, Deliver(config, outcome)) == "Summary sent to chat" + EMAIL_SKIPPED
  {
  }
}
